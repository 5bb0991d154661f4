/** Value-level model of one control cycle of the PFC boost controller in
    project/pfc/pfc.c: the controller aggregate `PFC_T` as a datatype, and
    each routine of the file as a function from the aggregate before the
    routine to the aggregate after it. The class in pfc_control.dfy performs
    the same steps in place and is proved to agree with these functions;
    pfc_properties.dfy proves what the controller promises about them. */
module PfcSpec {
  import opened FixedPoint
  import opened Estimators
  import opened FaultMask

  /** `Q15(0.999)`, the ceiling of the current reference: libq's `Q15(x)` is
      `32767 * x` rounded to nearest, here 32734. */
  const CURRENT_REFERENCE_MAX: Int16 := 32734
  /** `Q15(0.9999)`, the ratio the sample correction assumes when the ideal
      duty ratio is not positive. */
  const RATIO_NEAR_ONE: Int16 := 32764
  /** Voltage error beyond which the voltage loop runs with half its
      integral gain. */
  const LARGE_VOLTAGE_ERROR := 700

  /** The constants of the converter, which the build takes from its header
      file: window lengths, PI gains and scale exponents, soft-start setpoint
      and ramp, loop-rate divider, fault trip and recovery thresholds, fault
      bits, standby threshold, PWM period and duty limits, anti-windup
      ceiling, power-balance gain, and the two compile-time options. */
  datatype Config = Config(
    avgScaler: nat,                 // PFC_AVG_SCALER
    vacAvgLimit: nat,               // PFC_INPUT_FREQUENCY_COUNTER
    rmsLimit: nat,                  // PFC_RMS_SQUARE_COUNTMAX
    kpI: Int16, kiI: Int16, kpIScale: Int16, kiIScale: Int16,
    kpV: Int16, kiV: Int16, kpVScale: Int16, kiVScale: Int16,
    outputVoltageRef: Int16,        // PFC_OUPUT_VOLTAGE_REFERENCE
    rampCount: Int16,               // RAMP_COUNT
    rampRate: nat,                  // RAMP_RATE
    voltageLoopExeRate: nat,        // VOLTAGE_LOOP_EXE_RATE
    outputOverVoltageLimit: Int16,  // PFC_OUTPUT_OVER_VOLTAGE_LIMIT
    inputUnderVoltageLimitLo: Int16,
    inputUnderVoltageLimitHi: Int16,
    inputOverVoltageLimitLo: Int16,
    inputOverVoltageLimitHi: Int16,
    opOvBit: Bit,                   // PFC_FAULT_OP_OV == 1 << opOvBit
    ipUvBit: Bit,                   // PFC_FAULT_IP_UV == 1 << ipUvBit
    ipOvBit: Bit,                   // PFC_FAULT_IP_OV == 1 << ipOvBit
    minCurrentRefPeak: Int16,       // PFC_MIN_CURRENTREF_PEAK_Q15
    loopTimeTcy: Int16,             // PFC_LOOPTIME_TCY
    minDuty: Uint16, maxDuty: Uint16,
    kiIIntegralOutMax: int,         // KI_I_INTGRAL_OUT_MAX
    kmul: Int16,                    // KMUL
    currentOffsetCorrection: bool,  // ENABLE_PFC_CURRENT_OFFSET_CORRECTION
    powerControl: bool)             // PFC_POWER_CONTROL

  /** What the model assumes of the constants: non-empty windows whose
      lengths are positive as the signed 16-bit divisor of `__builtin_divsd`
      (so `1 << PFC_AVG_SCALER` must not reach bit 15), a soft-start step
      that moves the reference up without leaving int16, ordered duty
      limits, and three distinct single-bit fault codes (the empty mask
      being 0). */
  predicate ValidConfig(c: Config)
  {
    && c.avgScaler < 15
    && 0 < c.vacAvgLimit < 0x8000
    && 0 < c.rmsLimit < 0x8000
    && 0 < c.rampCount
    && c.outputVoltageRef + c.rampCount < 0x8000
    && c.minDuty <= c.maxDuty
    && DistinctBits(c.opOvBit, c.ipUvBit, c.ipOvBit)
  }

  /** Phase of the state machine. `Other` is a value of the `state` field
      that is none of the five phase constants; the dispatch ignores it. */
  datatype State = Init | OffsetMeas | Wait1Cycle | CtrlRun | Fault | Other(code: int)

  /** `PFC_MEASURE_VOLTAGE_T`. */
  datatype Voltages = Voltages(vdc: Int16, vac: Int16, offsetVac: Int16)

  /** `PFC_MEASURE_CURRENT_T`: raw inductor-current sample, sensor offset and
      the offset-calibration status. */
  datatype CurrentSense = CurrentSense(iL: Int16, offset: Int16, status: int)

  /** The PI controller record: reference, error, gains and their scale
      exponents, integrator, output and output clamp. */
  datatype PiState = PiState(
    reference: Int16, error: Int16,
    kp: Int16, ki: Int16, kpScale: Int16, kiScale: Int16,
    integralOut: int, output: Int16, maxOutput: Int16, minOutput: Int16)

  /** What one call of the external PI update `PFC_PIController` leaves in
      the record: a new clamped output and a new integrator. */
  datatype PiUpdate = PiUpdate(output: Int16, integralOut: int)

  /** What one call of the external `PFC_MeasureCurrentOffset` leaves in the
      current-sensor record. */
  datatype Calibration = Calibration(status: int, offset: Int16)

  /** Everything a cycle receives from collaborators outside the core. */
  datatype External = External(calibration: Calibration, voltagePi: PiUpdate, currentPi: PiUpdate)

  /** The three ADC readings of one cycle. */
  datatype Sample = Sample(vdc: Int16, vac: Int16, iL: Int16)

  /** The controller aggregate `PFC_T`; `outputsEnabled` is the state of the
      PWM outputs that `HAL_PFCPWMEnableOutputs` and
      `HAL_PFCPWMDisableOutputs` switch. */
  datatype PfcData = PfcData(
    voltage: Voltages,
    current: CurrentSense,
    vdcAvg: Avg,
    vacAvg: Avg,
    vacRms: Rms,
    piVoltage: PiState,
    piCurrent: PiState,
    iL: Int16,
    rectifiedVac: Int16,
    boostDutyRatio: Int16,
    currentReference: Int16,
    averageCurrent: Int16,
    faultStatus: Mask,
    state: State,
    duty: Uint16,
    rampRate: nat,
    voltLoopExeRate: nat,
    sampleCorrectionEnable: int,
    outputsEnabled: bool)

  /** The aggregate in zero-initialised static storage, before
      `PFC_ParamsInit` (the PWM outputs off). */
  function ZeroData(): (r: PfcData)
    ensures r.state == Init && Val(r.faultStatus) == 0 && !r.outputsEnabled
    ensures r.duty == 0 && r.currentReference == 0 && r.sampleCorrectionEnable == 0
    ensures r.vdcAvg.samples == 0 && r.vacAvg.samples == 0 && r.vacRms.samples == 0
    ensures r.piVoltage.integralOut == 0 && r.piCurrent.integralOut == 0
  {
    var pi := PiState(0, 0, 0, 0, 0, 0, 0, 0, 0, 0);
    PfcData(Voltages(0, 0, 0), CurrentSense(0, 0, 0),
            Avg(0, 0, 0, 0, 0, 0), Avg(0, 0, 0, 0, 0, 0), Rms(0, 0, 0, 0, 0, 0),
            pi, pi, 0, 0, 0, 0, 0, None(), Init, 0, 0, 0, 0, false)
  }

  /** The three windows have non-zero lengths, so none of their divisions
      is by zero. */
  predicate WellFormed(d: PfcData)
  {
    d.vdcAvg.sampleLimit > 0 && d.vacAvg.sampleLimit > 0 && d.vacRms.sampleLimit > 0
  }

  /** The fields a control cycle never writes: window lengths, scaler, PI
      gain scales and clamps, and the sample-correction switch. */
  predicate SameSettings(d: PfcData, e: PfcData)
  {
    && e.vdcAvg.sampleLimit == d.vdcAvg.sampleLimit && e.vdcAvg.scaler == d.vdcAvg.scaler
    && e.vacAvg.sampleLimit == d.vacAvg.sampleLimit && e.vacRms.sampleLimit == d.vacRms.sampleLimit
    && e.piVoltage.maxOutput == d.piVoltage.maxOutput && e.piVoltage.minOutput == d.piVoltage.minOutput
    && e.piCurrent.maxOutput == d.piCurrent.maxOutput && e.piCurrent.minOutput == d.piCurrent.minOutput
    && e.sampleCorrectionEnable == d.sampleCorrectionEnable
  }

  // ---------------------------------------------------------------------
  // Initialisation
  // ---------------------------------------------------------------------

  /** `PFC_ParamsInit`: window lengths, PI gains and output clamps, the INIT
      phase, an empty fault mask and sample correction switched off. */
  function ParamsInit(c: Config, d: PfcData): (r: PfcData)
    ensures ValidConfig(c) ==> WellFormed(r)
    ensures r.state == Init && r.faultStatus == None() && r.sampleCorrectionEnable == 0
    ensures r.voltage == d.voltage && r.current == d.current && r.duty == d.duty
    ensures r.outputsEnabled == d.outputsEnabled && r.currentReference == d.currentReference
    ensures r.vdcAvg.output == d.vdcAvg.output && r.vacAvg.output == d.vacAvg.output
    ensures r.vacRms.sqrOutput == d.vacRms.sqrOutput
  {
    d.(vacRms := d.vacRms.(sampleLimit := c.rmsLimit),
       vdcAvg := d.vdcAvg.(scaler := c.avgScaler, sampleLimit := Pow2(c.avgScaler)),
       vacAvg := d.vacAvg.(sampleLimit := c.vacAvgLimit),
       piCurrent := d.piCurrent.(kp := c.kpI, ki := c.kiI, kpScale := c.kpIScale, kiScale := c.kiIScale,
                                 maxOutput := INT16_MAX, minOutput := 0),
       piVoltage := d.piVoltage.(kp := c.kpV, ki := c.kiV, kpScale := c.kpVScale, kiScale := c.kiVScale,
                                 maxOutput := INT16_MAX, minOutput := 0),
       state := Init,
       faultStatus := None(),
       sampleCorrectionEnable := 0)
  }

  /** `PFC_ResetParams`: restart the three windows, clear the DC-average and
      mean-square ready flags, the mean-square peak, both integrators and the
      duty. The AC-average ready flag and all emitted outputs are kept. */
  function ResetParams(d: PfcData): (r: PfcData)
    ensures SameSettings(d, r) && r.state == d.state && r.faultStatus == d.faultStatus
    ensures WellFormed(d) ==>
      AverageAtWindowStart(r.vdcAvg) && AverageAtWindowStart(r.vacAvg) && RmsAtWindowStart(r.vacRms)
    ensures r.vdcAvg.output == d.vdcAvg.output && r.vacAvg.output == d.vacAvg.output
    ensures r.vacRms.sqrOutput == d.vacRms.sqrOutput && r.vacAvg.status == d.vacAvg.status
    ensures r.vdcAvg.status == 0 && r.vacRms.status == 0
    ensures r.piVoltage.integralOut == 0 && r.piCurrent.integralOut == 0 && r.duty == 0
  {
    d.(vdcAvg := d.vdcAvg.(sum := 0, samples := 0, status := 0),
       vacAvg := d.vacAvg.(sum := 0, samples := 0),
       vacRms := d.vacRms.(sum := 0, samples := 0, peak := 0, status := 0),
       piVoltage := d.piVoltage.(integralOut := 0),
       piCurrent := d.piCurrent.(integralOut := 0),
       duty := 0)
  }

  // ---------------------------------------------------------------------
  // Pure helpers of the cycle
  // ---------------------------------------------------------------------

  /** `PFC_SignalRectification`: the magnitude of the AC sample less its
      offset, computed in int16. The difference is narrowed to int16 first;
      when it narrows to -0x8000 its negation wraps back to -0x8000, the one
      negative result. Otherwise the result is the magnitude of the narrowed
      difference, which is `|vac - offsetVac|` whenever that fits. */
  function Rectify(v: Voltages): (r: Int16)
    ensures r < 0 <==> Wrap16(v.vac - v.offsetVac) == -0x8000
    ensures r >= 0 ==> r == Abs(Wrap16(v.vac - v.offsetVac))
    ensures -0x8000 < v.vac - v.offsetVac < 0x8000 ==> r == Abs(v.vac - v.offsetVac)
  {
    var output: int := Wrap16(v.vac - v.offsetVac);
    if output < 0 then Wrap16(-output) else output
  }

  /** Soft-start reference and ramp down-counter. */
  datatype Ramp = Ramp(reference: Int16, rampRate: nat)

  /** The soft-start step of a fault-free CTRL_RUN cycle: below the setpoint
      the reference moves up by `rampCount` when the down-counter has run
      out (which reloads it), else the counter counts down; at or above the
      setpoint the reference is set to it. */
  function SoftStart(c: Config, reference: Int16, rampRate: nat): (r: Ramp)
    ensures ValidConfig(c) && reference < c.outputVoltageRef ==>
      reference <= r.reference < c.outputVoltageRef + c.rampCount
    ensures reference >= c.outputVoltageRef ==> r.reference == c.outputVoltageRef
    ensures r.reference != reference ==> r.rampRate == c.rampRate || reference >= c.outputVoltageRef
  {
    if reference < c.outputVoltageRef then
      if rampRate == 0 then Ramp(Wrap16(reference + c.rampCount), c.rampRate)
      else Ramp(reference, rampRate - 1)
    else
      Ramp(c.outputVoltageRef, rampRate)
  }

  /** The clamp of the current reference to [0, Q15(0.999)]. */
  function ClampReference(x: Int16): (r: Int16)
    ensures 0 <= r <= CURRENT_REFERENCE_MAX
    ensures 0 <= x <= CURRENT_REFERENCE_MAX ==> r == x
    ensures x > CURRENT_REFERENCE_MAX ==> r == CURRENT_REFERENCE_MAX
    ensures x < 0 ==> r == 0
  {
    if x > CURRENT_REFERENCE_MAX then CURRENT_REFERENCE_MAX
    else if x < 0 then 0
    else x
  }

  /** Integral gain of the voltage loop for a given error: half of `KI_V`
      (by arithmetic shift) for a large error, `KI_V` otherwise. */
  function VoltageKi(c: Config, error: Int16): (ki: Int16)
    ensures error > LARGE_VOLTAGE_ERROR || error < -LARGE_VOLTAGE_ERROR ==> 2 * ki <= c.kiV <= 2 * ki + 1
    ensures -LARGE_VOLTAGE_ERROR <= error <= LARGE_VOLTAGE_ERROR ==> ki == c.kiV
  {
    assert Pow2(1) == 2;
    if error > LARGE_VOLTAGE_ERROR || error < -LARGE_VOLTAGE_ERROR then Shr(c.kiV, 1) else c.kiV
  }

  /** Power-balance synthesis of the current reference (option
      `PFC_POWER_CONTROL`): voltage-loop output times rectified input,
      shifted by 18; divided as a Q15 fraction by the mean-square when that
      is positive; times `KMUL`, shifted by 12; each step narrowed to int16. */
  function PowerBalanceReference(c: Config, voltageOut: Int16, rectifiedVac: Int16, sqrOutput: Int16): (r: Int16)
    ensures voltageOut == 0 || rectifiedVac == 0 ==> r == 0
    ensures (0 <= voltageOut && 0 <= rectifiedVac && 0 <= c.kmul <= 0x1000 &&
             (sqrOutput <= 0 || Shr(voltageOut * rectifiedVac, 18) < sqrOutput)) ==> 0 <= r
  {
    PowerBalanceBounds(c, voltageOut, rectifiedVac, sqrOutput);
    var product := Wrap16(Shr(voltageOut * rectifiedVac, 18));
    var quotient := if sqrOutput > 0 then DivF(product, sqrOutput) else product;
    Wrap16(Shr(quotient * c.kmul, 12))
  }

  /** The three steps of the power-balance synthesis: a zero factor gives a
      zero reference, and for non-negative factors whose product stays below
      the mean-square (so that the Q15 division is below one) and a gain
      `KMUL` of at most 2^12, no step wraps and the reference is
      non-negative. */
  lemma PowerBalanceBounds(c: Config, v: Int16, x: Int16, s: Int16)
    ensures var p := Wrap16(Shr(v * x, 18));
            var q := if s > 0 then DivF(p, s) else p;
            var r := Wrap16(Shr(q * c.kmul, 12));
            && (v == 0 || x == 0 ==> r == 0)
            && (0 <= v && 0 <= x && 0 <= c.kmul <= 0x1000 && (s <= 0 || Shr(v * x, 18) < s) ==> 0 <= r)
  {
    ProductFits(v, x);
    var p := Wrap16(Shr(v * x, 18));
    var q := if s > 0 then DivF(p, s) else p;
    GainFits(q, c.kmul);
  }

  /** Step 1 of the synthesis: the product shifted by 18 is 0 when a factor
      is 0 and lies in [0, 2^12) for non-negative factors. */
  lemma ProductFits(v: Int16, x: Int16)
    ensures v == 0 || x == 0 ==> Shr(v * x, 18) == 0
    ensures 0 <= v && 0 <= x ==> 0 <= Shr(v * x, 18) < 0x1000
  {
    Pow2Of18();
    ProductBound(v, x);
    if 0 <= v && 0 <= x {
      ShiftedProduct(v * x, 18, 0x1000);
    }
  }

  /** The product of two int16 factors: 0 when a factor is 0, and in
      [0, 0x7FFF^2] for non-negative factors. */
  lemma ProductBound(v: Int16, x: Int16)
    ensures v == 0 || x == 0 ==> v * x == 0
    ensures 0 <= v && 0 <= x ==> 0 <= v * x <= 0x7FFF * 0x7FFF
  {
    if v == 0 {
      assert v * x == 0 * x;
    } else if x == 0 {
      assert v * x == v * 0;
    }
    if 0 <= v && 0 <= x {
      MulMono(0, v, x);
      MulMono(v, 0x7FFF, x);
      assert 0x7FFF * x == x * 0x7FFF;
      MulMono(x, 0x7FFF, 0x7FFF);
    }
  }

  lemma Pow2Of18()
    ensures Pow2(18) == 0x4_0000
  {
    assert Pow2(12) == 0x1000;
    assert Pow2(18) == 64 * Pow2(12);
  }

  /** Step 3 of the synthesis: the quotient times `KMUL` shifted by 12 is 0
      for a zero quotient and lies in [0, 2^15) for a quotient in [0, 2^15)
      and a gain in [0, 2^12]. */
  lemma GainFits(q: int, k: int)
    ensures q == 0 ==> Shr(q * k, 12) == 0
    ensures 0 <= q < 0x8000 && 0 <= k <= 0x1000 ==> 0 <= Shr(q * k, 12) < 0x8000
  {
    assert Pow2(12) == 0x1000;
    if q == 0 {
      assert q * k == 0;
    }
    if 0 <= q < 0x8000 && 0 <= k <= 0x1000 {
      MulMono(k, 0x1000, q);
      ShiftedProduct(q * k, 12, 0x8000);
    }
  }

  /** A non-negative value below `bound * 2^n`, shifted right by n, lies in
      [0, bound). */
  lemma ShiftedProduct(y: int, n: nat, bound: nat)
    requires 0 <= y < bound * Pow2(n)
    ensures 0 <= Shr(y, n) < bound
  {
    var e := Shr(y, n);
    if e < 0 {
      MulMono(e + 1, 0, Pow2(n));
      assert false;
    }
    LessFromProducts(e, bound, Pow2(n));
  }

  /** `PFC_CurrentRefGenerate`: the voltage loop runs once the rate divider
      has passed `VOLTAGE_LOOP_EXE_RATE` (error, gain schedule, the external
      PI update, divider reset), else the divider counts up; then the
      optional power-balance synthesis and the clamp. */
  function CurrentRefGenerate(c: Config, d: PfcData, u: PiUpdate): (r: PfcData)
    ensures SameSettings(d, r)
    ensures r.state == d.state
  {
    var runs := d.voltLoopExeRate > c.voltageLoopExeRate;
    var error := Wrap16(d.piVoltage.reference - d.vdcAvg.output);
    var pi :=
      if runs then d.piVoltage.(error := error, ki := VoltageKi(c, error), output := u.output, integralOut := u.integralOut)
      else d.piVoltage;
    var reference :=
      if c.powerControl then PowerBalanceReference(c, pi.output, d.rectifiedVac, d.vacRms.sqrOutput)
      else d.currentReference;
    d.(piVoltage := pi,
       voltLoopExeRate := if runs then 0 else d.voltLoopExeRate + 1,
       currentReference := ClampReference(reference))
  }

  /** Ideal boost duty ratio `1 - vac/vdc = (vdc - rectifiedVac) / vdc` as a
      Q15 fraction (`__builtin_divf` of the difference narrowed to int16).
      For a rectified input in (0, vdc] it is the exact truncated fraction,
      in [0, 1). */
  function BoostDutyRatio(vdc: Int16, rectifiedVac: Int16): (r: Int16)
    requires vdc > 0
    ensures 0 < rectifiedVac <= vdc ==> r == TruncDiv((vdc - rectifiedVac) * 0x8000, vdc) && 0 <= r < 0x8000
  {
    if 0 < rectifiedVac <= vdc then
      DivFExact(vdc - rectifiedVac, vdc);
      DivF(Wrap16(vdc - rectifiedVac), vdc)
    else
      DivF(Wrap16(vdc - rectifiedVac), vdc)
  }

  /** `PFC_CurrentSampleCorrection`: the discontinuous-conduction estimate of
      the average current. The ratio of the current loop's previous output
      to the ideal duty ratio (Q15(0.9999) when that is not positive) scales
      the sample when it is positive; otherwise the sample is used as it is.
      For a non-negative sample the estimate never exceeds the sample, and it
      is the sample scaled by the exact Q15 ratio `piOutput / boostDutyRatio`
      when that ratio lies in (0, 1), by Q15(0.9999) when the ideal duty
      ratio is not positive, and the sample itself when the ratio is in
      (-1, 0]. */
  function CurrentSampleCorrection(iL: Int16, piOutput: Int16, boostDutyRatio: Int16): (r: Int16)
    ensures 0 <= iL ==> 0 <= r <= iL
    ensures 0 <= iL && 0 < piOutput < boostDutyRatio ==>
      r == iL * TruncDiv(piOutput * 0x8000, boostDutyRatio) / 0x8000
    ensures 0 <= iL && boostDutyRatio <= 0 ==> r == iL * RATIO_NEAR_ONE / 0x8000
    ensures 0 < boostDutyRatio && -boostDutyRatio < piOutput <= 0 ==> r == iL
  {
    var ratio :=
      if boostDutyRatio <= 0 then RATIO_NEAR_ONE
      else if Abs(piOutput) < boostDutyRatio then
        DivFExact(piOutput, boostDutyRatio);
        DivF(piOutput, boostDutyRatio)
      else DivF(piOutput, boostDutyRatio);
    ScaleDown(iL, ratio);
    assert Pow2(15) == 0x8000;
    if ratio > 0 then Wrap16(Shr(iL * ratio, 15)) else iL
  }

  lemma ScaleDown(x: Int16, q: Int16)
    ensures 0 <= x && 0 < q ==> 0 <= Shr(x * q, 15) <= x
  {
    assert Pow2(15) == 0x8000;
    if 0 <= x && 0 < q {
      assert 0 <= x * q <= x * 0x8000;
      var s := Shr(x * q, 15);
      assert s * 0x8000 <= x * q < (s + 1) * 0x8000;
    }
  }

  /** Duty count of a current-loop output: `(output * PFC_LOOPTIME_TCY) >> 15`
      stored in a `uint16_t`. */
  function RawDuty(c: Config, piOutput: Int16): (r: Uint16)
    ensures 0 <= piOutput && 0 <= c.loopTimeTcy ==> r <= c.loopTimeTcy
  {
    RawDutyBound(c.loopTimeTcy, piOutput);
    WrapU16(Shr(piOutput * c.loopTimeTcy, 15))
  }

  /** For a non-negative output and period the shifted product lies in
      [0, period]. */
  lemma RawDutyBound(tcy: Int16, output: Int16)
    ensures 0 <= output && 0 <= tcy ==> 0 <= Shr(output * tcy, 15) <= tcy
  {
    assert Pow2(15) == 0x8000;
    if 0 <= output && 0 <= tcy {
      var s := Shr(output * tcy, 15);
      assert 0 <= output * tcy <= 0x8000 * tcy;
      assert s * 0x8000 <= output * tcy < (s + 1) * 0x8000;
      assert s * 0x8000 < (tcy + 1) * 0x8000;
    }
  }

  /** The duty limits of the current loop: above `PFC_MAX_DUTY` the top,
      below `PFC_MIN_DUTY` the bottom, else the count itself. */
  function ClampDuty(c: Config, raw: Uint16): (duty: Uint16)
    ensures c.minDuty <= c.maxDuty ==> c.minDuty <= duty <= c.maxDuty
    ensures c.minDuty <= raw <= c.maxDuty ==> duty == raw
    ensures raw > c.maxDuty ==> duty == c.maxDuty
  {
    if raw > c.maxDuty then c.maxDuty
    else if raw < c.minDuty then c.minDuty
    else raw
  }

  /** `PFC_CurrentControlLoop`: a negative current sample becomes 1; the
      average current is the corrected or the raw sample; the external PI
      update; the duty count clamped to [PFC_MIN_DUTY, PFC_MAX_DUTY], with the
      integrator forced to `KI_I_INTGRAL_OUT_MAX` when it is above the top. */
  function CurrentControlLoop(c: Config, d: PfcData, u: PiUpdate): (r: PfcData)
    ensures SameSettings(d, r)
    ensures r.state == d.state
  {
    var iL := if d.iL < 0 then 1 else d.iL;
    var average :=
      if d.sampleCorrectionEnable == 1 then CurrentSampleCorrection(iL, d.piCurrent.output, d.boostDutyRatio)
      else iL;
    var raw := RawDuty(c, u.output);
    d.(iL := iL,
       averageCurrent := average,
       duty := ClampDuty(c, raw),
       piCurrent := d.piCurrent.(output := u.output,
                                 integralOut := if raw > c.maxDuty then c.kiIIntegralOutMax else u.integralOut))
  }

  /** `PFC_FaultCheck`: each trip condition adds its fault code to the mask
      (arithmetic `+=` on 16 bits). */
  function FaultCheck(c: Config, d: PfcData): (r: PfcData)
    ensures SameSettings(d, r)
    ensures r.state == d.state
  {
    var m1 := AddIf(d.faultStatus, d.vdcAvg.output >= c.outputOverVoltageLimit, c.opOvBit);
    var m2 := AddIf(m1, d.vacRms.sqrOutput < c.inputUnderVoltageLimitLo, c.ipUvBit);
    var m3 := AddIf(m2, d.vacRms.sqrOutput >= c.inputOverVoltageLimitHi, c.ipOvBit);
    d.(faultStatus := m3)
  }

  // ---------------------------------------------------------------------
  // The state machine
  // ---------------------------------------------------------------------

  /** The estimators every cycle runs first, whatever the phase: DC-bus
      average, AC average (which becomes the AC offset), rectification and
      mean-square of the rectified input. */
  function Estimate(d: PfcData): (r: PfcData)
    requires WellFormed(d)
    ensures WellFormed(r) && SameSettings(d, r)
  {
    var vdcAvg := AverageStep(d.vdcAvg, d.voltage.vdc);
    var vacAvg := AverageStep(d.vacAvg, d.voltage.vac);
    var voltage := d.voltage.(offsetVac := vacAvg.output);
    var rectified := Rectify(voltage);
    d.(vdcAvg := vdcAvg, vacAvg := vacAvg, voltage := voltage,
       rectifiedVac := rectified, vacRms := RmsStep(d.vacRms, rectified))
  }

  /** INIT: reset, outputs off, on to OFFSET_MEAS. The start of the external
      current-offset calibration is not modelled. */
  function InitPhase(d: PfcData): (r: PfcData)
    ensures SameSettings(d, r)
  {
    ResetParams(d).(outputsEnabled := false, state := OffsetMeas)
  }

  /** OFFSET_MEAS: record the calibration call's status and offset; once the
      sensor offset and the AC average are both ready, seed the voltage
      reference from the DC-bus average and go to WAIT_1CYCLE. */
  function OffsetMeasPhase(d: PfcData, cal: Calibration): (r: PfcData)
    ensures SameSettings(d, r)
  {
    var d1 := d.(current := d.current.(status := cal.status, offset := cal.offset));
    if d1.current.status == 1 && d1.vacAvg.status == 1 then
      d1.(piVoltage := d1.piVoltage.(reference := d1.vdcAvg.output),
          voltage := d1.voltage.(offsetVac := d1.vacAvg.output),
          state := Wait1Cycle)
    else d1
  }

  /** WAIT_1CYCLE: once the mean-square is ready, outputs on and CTRL_RUN. */
  function Wait1CyclePhase(d: PfcData): (r: PfcData)
    ensures SameSettings(d, r)
  {
    if d.vacRms.status == 1 then d.(outputsEnabled := true, state := CtrlRun) else d
  }

  /** The control work of a fault-free CTRL_RUN cycle: soft start, current
      reference, ideal boost duty ratio `(vdc - rectifiedVac) / vdc` as a Q15
      fraction when `vdc > 0`, current loop, and the standby override that
      zeroes the duty and current integrator when the voltage loop's output
      is below `PFC_MIN_CURRENTREF_PEAK_Q15`. */
  function RunControl(c: Config, d: PfcData, ext: External): (r: PfcData)
    ensures SameSettings(d, r)
    ensures r.state == d.state
  {
    var ramp := SoftStart(c, d.piVoltage.reference, d.rampRate);
    var d1 := d.(piVoltage := d.piVoltage.(reference := ramp.reference), rampRate := ramp.rampRate);
    var d2 := CurrentRefGenerate(c, d1, ext.voltagePi);
    var d3 :=
      if d2.voltage.vdc > 0 then d2.(boostDutyRatio := BoostDutyRatio(d2.voltage.vdc, d2.rectifiedVac))
      else d2;
    var d4 := CurrentControlLoop(c, d3, ext.currentPi);
    if d4.piVoltage.output < c.minCurrentRefPeak then
      d4.(duty := 0, piCurrent := d4.piCurrent.(integralOut := 0))
    else d4
  }

  /** The corrected current sample of the offset-correction option. */
  function OffsetCorrect(c: Config, d: PfcData): (r: PfcData)
    ensures SameSettings(d, r)
    ensures r.state == d.state
  {
    if c.currentOffsetCorrection then d.(iL := Wrap16(d.current.iL - d.current.offset)) else d
  }

  /** CTRL_RUN: the optional offset correction, the fault check, then either
      the control work or, with a non-empty mask, the move to FAULT (duty,
      reference and outputs left as they were). */
  function CtrlRunPhase(c: Config, d: PfcData, ext: External): (r: PfcData)
    ensures SameSettings(d, r)
  {
    var d1 := FaultCheck(c, OffsetCorrect(c, d));
    if d1.faultStatus == None() then RunControl(c, d1, ext) else d1.(state := Fault)
  }

  /** FAULT: duty 0 and outputs off; the input under-voltage code is cleared
      once the mean-square is at least `PFC_INPUT_UNDER_VOLTAGE_LIMIT_HI`, the
      input over-voltage code once it is below
      `PFC_INPUT_OVER_VOLTAGE_LIMIT_LO`; nothing clears the output
      over-voltage code. With an empty mask both integrators are zeroed, the
      reference is reseeded from the DC-bus average, the outputs come back on
      and the phase is CTRL_RUN. */
  function FaultPhase(c: Config, d: PfcData): (r: PfcData)
    ensures SameSettings(d, r)
  {
    var m1 := ClearIf(d.faultStatus, d.vacRms.sqrOutput >= c.inputUnderVoltageLimitHi, c.ipUvBit);
    var m2 := ClearIf(m1, d.vacRms.sqrOutput < c.inputOverVoltageLimitLo, c.ipOvBit);
    if m2 == None() then
      d.(duty := 0, faultStatus := m2,
         piVoltage := d.piVoltage.(integralOut := 0, reference := d.vdcAvg.output),
         piCurrent := d.piCurrent.(integralOut := 0),
         state := CtrlRun,
         outputsEnabled := true)
    else
      d.(duty := 0, faultStatus := m2, outputsEnabled := false)
  }

  /** The phase dispatch of `PFC_StateMachine`, after the estimators. */
  function Dispatch(c: Config, d: PfcData, ext: External): (r: PfcData)
    ensures SameSettings(d, r)
  {
    match d.state
    case Init => InitPhase(d)
    case OffsetMeas => OffsetMeasPhase(d, ext.calibration)
    case Wait1Cycle => Wait1CyclePhase(d)
    case CtrlRun => CtrlRunPhase(c, d, ext)
    case Fault => FaultPhase(c, d)
    case Other(_) => d
  }

  /** `PFC_StateMachine`: estimators, then the phase dispatch. */
  function StateMachine(c: Config, d: PfcData, ext: External): (r: PfcData)
    requires WellFormed(d)
    ensures WellFormed(r) && SameSettings(d, r)
  {
    Dispatch(c, Estimate(d), ext)
  }

  /** The effect of the ADC interrupt on the aggregate: latch the three
      readings, then one state-machine cycle. */
  function Tick(c: Config, d: PfcData, s: Sample, ext: External): (r: PfcData)
    requires WellFormed(d)
    ensures WellFormed(r) && SameSettings(d, r)
  {
    StateMachine(c, d.(voltage := d.voltage.(vdc := s.vdc, vac := s.vac), current := d.current.(iL := s.iL)), ext)
  }

  /** One cycle's inputs. */
  datatype Cycle = Cycle(sample: Sample, ext: External)

  /** The aggregate after a sequence of cycles, oldest first. */
  function Run(c: Config, d: PfcData, cycles: seq<Cycle>): (r: PfcData)
    requires WellFormed(d)
    ensures WellFormed(r) && SameSettings(d, r)
  {
    if cycles == [] then d
    else
      var last := cycles[|cycles| - 1];
      Tick(c, Run(c, d, cycles[..|cycles| - 1]), last.sample, last.ext)
  }
}
