/** What the PFC controller of project/pfc/pfc.c promises, proved about the
    value-level model in pfc_spec.dfy: the invariant every cycle keeps, the
    transitions of each phase, the fault mask, the soft start, the rate
    divider of the voltage loop and the current loop. */
module PfcProperties {
  import opened FixedPoint
  import opened Estimators
  import opened FaultMask
  import opened PfcSpec

  // ---------------------------------------------------------------------
  // The invariant
  // ---------------------------------------------------------------------

  /** The mask holds no bit other than the three fault codes. */
  predicate KnownFaults(c: Config, m: Mask)
  {
    OnlyBits(m, c.opOvBit, c.ipUvBit, c.ipOvBit)
  }

  /** The settings `PFC_ParamsInit` writes, which no cycle changes. */
  predicate SettingsOk(c: Config, d: PfcData)
  {
    && d.vdcAvg.sampleLimit == Pow2(c.avgScaler) && d.vdcAvg.scaler == c.avgScaler
    && d.vacAvg.sampleLimit == c.vacAvgLimit && d.vacRms.sampleLimit == c.rmsLimit
    && d.piVoltage.minOutput == 0 && d.piVoltage.maxOutput == INT16_MAX
    && d.piCurrent.minOutput == 0 && d.piCurrent.maxOutput == INT16_MAX
  }

  /** The window counters stay below their limits (the mean-square window
      takes one term more, so its counter may reach the limit). */
  predicate WindowsOk(d: PfcData)
  {
    && d.vdcAvg.samples < d.vdcAvg.sampleLimit
    && d.vacAvg.samples < d.vacAvg.sampleLimit
    && d.vacRms.samples <= d.vacRms.sampleLimit
  }

  /** Bounds on the control state: non-negative PI outputs, the soft-start
      and rate-divider counters within their reload values, the current
      reference within [0, Q15(0.999)], and a duty that is either 0 (fault
      or standby) or within [PFC_MIN_DUTY, PFC_MAX_DUTY]. */
  predicate ControlOk(c: Config, d: PfcData)
  {
    && 0 <= d.piVoltage.output && 0 <= d.piCurrent.output
    && d.rampRate <= c.rampRate
    && d.voltLoopExeRate <= c.voltageLoopExeRate + 1
    && 0 <= d.currentReference <= CURRENT_REFERENCE_MAX
    && (d.duty == 0 || c.minDuty <= d.duty <= c.maxDuty)
  }

  /** The phase agrees with the fault mask and the PWM outputs: FAULT exactly
      when the mask is non-empty, only known codes in the mask, outputs on in
      CTRL_RUN and off before it. */
  predicate PhaseOk(c: Config, d: PfcData)
  {
    && (d.state == Fault <==> d.faultStatus != None())
    && KnownFaults(c, d.faultStatus)
    && (d.state == CtrlRun ==> d.outputsEnabled)
    && (d.state == Init || d.state == OffsetMeas || d.state == Wait1Cycle ==> !d.outputsEnabled)
  }

  predicate Inv(c: Config, d: PfcData)
  {
    ValidConfig(c) && SettingsOk(c, d) && WindowsOk(d) && ControlOk(c, d) && PhaseOk(c, d)
  }

  /** What the external PI update delivers: an output clamped to the
      record's [minOutput, maxOutput], which is [0, INT16_MAX]. */
  predicate PiOutputsOk(ext: External)
  {
    0 <= ext.voltagePi.output && 0 <= ext.currentPi.output
  }

  /** `PFC_ParamsInit` on zeroed storage establishes the invariant, in INIT,
      with an empty mask and the outputs off. */
  lemma InitialInvariant(c: Config)
    requires ValidConfig(c)
    ensures var d := ParamsInit(c, ZeroData());
      Inv(c, d) && d.state == Init && d.faultStatus == None() && !d.outputsEnabled
  {
  }

  lemma EstimateKeepsInv(c: Config, d: PfcData)
    requires Inv(c, d)
    ensures var e := Estimate(d);
      Inv(c, e) && e.state == d.state && e.faultStatus == d.faultStatus
  {
  }

  lemma InitKeepsInv(c: Config, d: PfcData)
    requires Inv(c, d) && d.state == Init
    ensures Inv(c, InitPhase(d))
  {
  }

  lemma OffsetMeasKeepsInv(c: Config, d: PfcData, cal: Calibration)
    requires Inv(c, d) && d.state == OffsetMeas
    ensures Inv(c, OffsetMeasPhase(d, cal))
  {
  }

  lemma Wait1CycleKeepsInv(c: Config, d: PfcData)
    requires Inv(c, d) && d.state == Wait1Cycle
    ensures Inv(c, Wait1CyclePhase(d))
  {
  }

  lemma RunControlKeepsInv(c: Config, d: PfcData, ext: External)
    requires Inv(c, d) && PiOutputsOk(ext)
    ensures Inv(c, RunControl(c, d, ext))
  {
    RunControlKeeps(c, d, ext);
    RunControlCycle(c, d, ext);
    RunControlCounters(c, d, ext);
  }

  lemma CtrlRunKeepsInv(c: Config, d: PfcData, ext: External)
    requires Inv(c, d) && d.state == CtrlRun && PiOutputsOk(ext)
    ensures Inv(c, CtrlRunPhase(c, d, ext))
  {
    var d0 := OffsetCorrect(c, d);
    FaultCheckFromClear(c, d0);
    TripMaskCodes(c, d0);
    var d1 := FaultCheck(c, d0);
    assert Inv(c, d0);
    if d1.faultStatus == None() {
      assert Inv(c, d1);
      RunControlKeepsInv(c, d1, ext);
    }
  }

  lemma FaultKeepsInv(c: Config, d: PfcData)
    requires Inv(c, d) && d.state == Fault
    ensures Inv(c, FaultPhase(c, d))
  {
    var ext := External(Calibration(0, 0), PiUpdate(0, 0), PiUpdate(0, 0));
    FaultKeepsKnown(c, d, ext);
    FaultCycleExit(c, d, ext);
    assert FaultPhase(c, d) == Dispatch(c, d, ext);
  }

  /** One state-machine cycle keeps the invariant, whatever the phase. */
  lemma StateMachineKeepsInv(c: Config, d: PfcData, ext: External)
    requires Inv(c, d) && PiOutputsOk(ext)
    ensures Inv(c, StateMachine(c, d, ext))
  {
    EstimateKeepsInv(c, d);
    var e := Estimate(d);
    match e.state
    case Init => InitKeepsInv(c, e);
    case OffsetMeas => OffsetMeasKeepsInv(c, e, ext.calibration);
    case Wait1Cycle => Wait1CycleKeepsInv(c, e);
    case CtrlRun => CtrlRunKeepsInv(c, e, ext);
    case Fault => FaultKeepsInv(c, e);
    case Other(_) =>
  }

  lemma TickKeepsInv(c: Config, d: PfcData, s: Sample, ext: External)
    requires Inv(c, d) && PiOutputsOk(ext)
    ensures Inv(c, Tick(c, d, s, ext))
  {
    StateMachineKeepsInv(c, d.(voltage := d.voltage.(vdc := s.vdc, vac := s.vac), current := d.current.(iL := s.iL)), ext);
  }

  /** Every sequence of cycles keeps the invariant. */
  lemma {:induction false} RunKeepsInv(c: Config, d: PfcData, cycles: seq<Cycle>)
    requires Inv(c, d)
    requires forall i :: 0 <= i < |cycles| ==> PiOutputsOk(cycles[i].ext)
    ensures Inv(c, Run(c, d, cycles))
  {
    if cycles != [] {
      var prefix := cycles[..|cycles| - 1];
      assert forall i :: 0 <= i < |prefix| ==> PiOutputsOk(prefix[i].ext) by {
        forall i | 0 <= i < |prefix| ensures PiOutputsOk(prefix[i].ext) {
          assert prefix[i] == cycles[i];
        }
      }
      RunKeepsInv(c, d, prefix);
      var last := cycles[|cycles| - 1];
      TickKeepsInv(c, Run(c, d, prefix), last.sample, last.ext);
    }
  }

  /** From power-on, after any sequence of cycles: the duty is 0 or within
      the duty limits, the current reference within [0, Q15(0.999)], and
      CTRL_RUN always runs with an empty fault mask (so the `+=` of the
      fault check always adds to 0). */
  lemma ReachableStates(c: Config, cycles: seq<Cycle>)
    requires ValidConfig(c)
    requires forall i :: 0 <= i < |cycles| ==> PiOutputsOk(cycles[i].ext)
    ensures var r := Run(c, ParamsInit(c, ZeroData()), cycles);
      && (r.duty == 0 || c.minDuty <= r.duty <= c.maxDuty)
      && 0 <= r.currentReference <= CURRENT_REFERENCE_MAX
      && (r.state == CtrlRun ==> r.faultStatus == None() && r.outputsEnabled)
      && (r.state == Fault <==> r.faultStatus != None())
  {
    InitialInvariant(c);
    RunKeepsInv(c, ParamsInit(c, ZeroData()), cycles);
  }

  // ---------------------------------------------------------------------
  // The fault mask
  // ---------------------------------------------------------------------

  /** The trip conditions of `PFC_FaultCheck`. */
  predicate OutputOverVoltage(c: Config, d: PfcData) { d.vdcAvg.output >= c.outputOverVoltageLimit }
  predicate InputUnderVoltage(c: Config, d: PfcData) { d.vacRms.sqrOutput < c.inputUnderVoltageLimitLo }
  predicate InputOverVoltage(c: Config, d: PfcData) { d.vacRms.sqrOutput >= c.inputOverVoltageLimitHi }

  predicate Tripped(c: Config, d: PfcData)
  {
    OutputOverVoltage(c, d) || InputUnderVoltage(c, d) || InputOverVoltage(c, d)
  }

  /** The union of the codes of the conditions that hold. */
  function TripMask(c: Config, d: PfcData): Mask
  {
    Union3(OutputOverVoltage(c, d), c.opOvBit, InputUnderVoltage(c, d), c.ipUvBit,
           InputOverVoltage(c, d), c.ipOvBit)
  }

  /** From an empty mask, the additions of `PFC_FaultCheck` produce exactly
      the union of the codes of the conditions that hold, and nothing else
      changes. */
  lemma FaultCheckFromClear(c: Config, d: PfcData)
    requires ValidConfig(c) && d.faultStatus == None()
    ensures FaultCheck(c, d) == d.(faultStatus := TripMask(c, d))
  {
    AddFromNone(c.opOvBit, c.ipUvBit, c.ipOvBit,
                OutputOverVoltage(c, d), InputUnderVoltage(c, d), InputOverVoltage(c, d));
  }

  /** The mask after the fault check: each code is in it iff its condition
      holds, it is non-empty iff some condition holds, and it holds no other
      code. */
  lemma TripMaskCodes(c: Config, d: PfcData)
    requires ValidConfig(c)
    ensures TripMask(c, d)[c.opOvBit] <==> OutputOverVoltage(c, d)
    ensures TripMask(c, d)[c.ipUvBit] <==> InputUnderVoltage(c, d)
    ensures TripMask(c, d)[c.ipOvBit] <==> InputOverVoltage(c, d)
    ensures TripMask(c, d) != None() <==> Tripped(c, d)
    ensures KnownFaults(c, TripMask(c, d))
  {
    var m := TripMask(c, d);
    if !Tripped(c, d) {
      assert forall i :: 0 <= i < WIDTH ==> m[i] == None()[i];
    }
  }

  /** With no condition holding the fault check changes nothing. */
  lemma FaultCheckQuiet(c: Config, d: PfcData)
    requires !Tripped(c, d)
    ensures FaultCheck(c, d) == d
  {
  }

  /** The `+=` is not a union on a non-empty mask: with the under-voltage
      code the next bit above the over-voltage code (as with codes 1 and 2),
      an over-voltage trip on a mask that already holds the over-voltage
      code carries into the under-voltage code and drops its own. The
      invariant (CTRL_RUN only with an empty mask) keeps the controller from
      reaching this. */
  lemma RepeatedTripCarries(c: Config, d: PfcData)
    requires ValidConfig(c) && c.ipUvBit == c.opOvBit + 1
    requires d.faultStatus == Code(c.opOvBit) && OutputOverVoltage(c, d)
    requires !InputUnderVoltage(c, d) && !InputOverVoltage(c, d)
    ensures FaultCheck(c, d).faultStatus == Code(c.ipUvBit)
    ensures !FaultCheck(c, d).faultStatus[c.opOvBit]
  {
    AddCarries(c.opOvBit);
  }

  // ---------------------------------------------------------------------
  // The phases of one cycle
  // ---------------------------------------------------------------------

  /** The aggregate the phase dispatch sees: the cycle's estimates. */
  lemma EstimatesOfCycle(d: PfcData)
    requires WellFormed(d)
    ensures var e := Estimate(d);
      && e.vdcAvg == AverageStep(d.vdcAvg, d.voltage.vdc)
      && e.vacAvg == AverageStep(d.vacAvg, d.voltage.vac)
      && e.voltage == d.voltage.(offsetVac := e.vacAvg.output)
      && e.rectifiedVac == Rectify(e.voltage)
      && e.vacRms == RmsStep(d.vacRms, e.rectifiedVac)
      && e == d.(vdcAvg := e.vdcAvg, vacAvg := e.vacAvg, voltage := e.voltage,
                 rectifiedVac := e.rectifiedVac, vacRms := e.vacRms)
  {
  }

  /** The estimates a phase leaves as they are. */
  predicate SameEstimates(e: PfcData, r: PfcData)
  {
    && r.vdcAvg.output == e.vdcAvg.output && r.vacAvg.output == e.vacAvg.output
    && r.rectifiedVac == e.rectifiedVac && r.vacRms.sqrOutput == e.vacRms.sqrOutput
    && r.voltage.vdc == e.voltage.vdc && r.voltage.vac == e.voltage.vac
  }

  /** No phase changes the cycle's estimates: whatever the phase, the
      outputs after a cycle are this cycle's window steps on this cycle's
      samples. */
  lemma DispatchKeepsEstimates(c: Config, e: PfcData, ext: External)
    ensures SameEstimates(e, Dispatch(c, e, ext))
  {
    match e.state
    case Init =>
    case OffsetMeas =>
    case Wait1Cycle =>
    case CtrlRun =>
      var d1 := FaultCheck(c, OffsetCorrect(c, e));
      if d1.faultStatus == None() {
        RunControlKeeps(c, d1, ext);
      }
    case Fault =>
    case Other(_) =>
  }

  lemma EstimatorsRunEveryCycle(c: Config, d: PfcData, ext: External)
    requires WellFormed(d)
    ensures var r := StateMachine(c, d, ext);
      && r.vdcAvg.output == AverageStep(d.vdcAvg, d.voltage.vdc).output
      && r.vacAvg.output == AverageStep(d.vacAvg, d.voltage.vac).output
      && r.rectifiedVac == Rectify(d.voltage.(offsetVac := r.vacAvg.output))
      && r.vacRms.sqrOutput == RmsStep(d.vacRms, r.rectifiedVac).sqrOutput
  {
    EstimatesOfCycle(d);
    DispatchKeepsEstimates(c, Estimate(d), ext);
  }

  /** INIT: the windows restart, the DC-average and mean-square ready flags,
      the mean-square peak, both integrators and the duty are cleared, the
      outputs go off and the next phase is OFFSET_MEAS; the AC-average ready
      flag and the mask are kept. */
  lemma InitCycle(c: Config, e: PfcData, ext: External)
    requires e.state == Init
    ensures var r := Dispatch(c, e, ext);
      && r.state == OffsetMeas && !r.outputsEnabled && r.duty == 0
      && r.vdcAvg.sum == 0 && r.vdcAvg.samples == 0 && r.vdcAvg.status == 0
      && r.vacAvg.sum == 0 && r.vacAvg.samples == 0 && r.vacAvg.status == e.vacAvg.status
      && r.vacRms.sum == 0 && r.vacRms.samples == 0 && r.vacRms.status == 0 && r.vacRms.peak == 0
      && r.piVoltage.integralOut == 0 && r.piCurrent.integralOut == 0
      && r.faultStatus == e.faultStatus
  {
  }

  /** OFFSET_MEAS moves on to WAIT_1CYCLE exactly when the calibration
      reports done and this cycle's AC average is ready, seeding the voltage
      reference with the DC-bus average; otherwise it stays, with the voltage
      loop untouched. The outputs and the duty are left alone. */
  lemma OffsetMeasCycle(c: Config, e: PfcData, ext: External)
    requires e.state == OffsetMeas
    ensures var r := Dispatch(c, e, ext);
      && (r.state == Wait1Cycle <==> ext.calibration.status == 1 && e.vacAvg.status == 1)
      && (r.state != Wait1Cycle ==> r.state == OffsetMeas && r.piVoltage == e.piVoltage)
      && (r.state == Wait1Cycle ==> r.piVoltage.reference == e.vdcAvg.output)
      && r.current.status == ext.calibration.status && r.current.offset == ext.calibration.offset
      && r.outputsEnabled == e.outputsEnabled && r.duty == e.duty
  {
  }

  /** WAIT_1CYCLE moves on to CTRL_RUN with the outputs on exactly when the
      mean-square is ready; otherwise the cycle changes nothing. */
  lemma Wait1CycleCycle(c: Config, e: PfcData, ext: External)
    requires e.state == Wait1Cycle
    ensures var r := Dispatch(c, e, ext);
      && (r.state == CtrlRun <==> e.vacRms.status == 1)
      && (r.state == CtrlRun ==> r.outputsEnabled)
      && (r.state != CtrlRun ==> r == e)
  {
  }

  /** CTRL_RUN with an empty mask: the cycle enters FAULT exactly when a trip
      condition holds on this cycle's estimates, with the mask set to the
      tripped codes; on the detecting cycle the duty, the outputs and both
      loops are left as they were. */
  lemma CtrlRunCycle(c: Config, e: PfcData, ext: External)
    requires ValidConfig(c) && e.state == CtrlRun && e.faultStatus == None()
    ensures var r := Dispatch(c, e, ext);
      && (r.state == Fault <==> Tripped(c, e))
      && (r.state != Fault ==> r.state == CtrlRun)
      && r.faultStatus == TripMask(c, e)
      && (Tripped(c, e) ==>
            r.duty == e.duty && r.outputsEnabled == e.outputsEnabled
            && r.piVoltage == e.piVoltage && r.piCurrent == e.piCurrent)
  {
    var e0 := OffsetCorrect(c, e);
    FaultCheckFromClear(c, e0);
    assert TripMask(c, e0) == TripMask(c, e);
    TripMaskCodes(c, e);
    if !Tripped(c, e) {
      RunControlKeeps(c, FaultCheck(c, e0), ext);
    }
  }

  /** FAULT: the duty is 0, the output over-voltage code is never removed,
      the input under-voltage code is removed iff the mean-square is at
      least `PFC_INPUT_UNDER_VOLTAGE_LIMIT_HI`, the input over-voltage code
      iff it is below `PFC_INPUT_OVER_VOLTAGE_LIMIT_LO`, and no bit is added. */
  lemma FaultCycleCodes(c: Config, e: PfcData, ext: External)
    requires ValidConfig(c) && e.state == Fault
    ensures var r := Dispatch(c, e, ext);
      && r.duty == 0
      && r.faultStatus[c.opOvBit] == e.faultStatus[c.opOvBit]
      && (r.faultStatus[c.ipUvBit] <==>
            e.faultStatus[c.ipUvBit] && e.vacRms.sqrOutput < c.inputUnderVoltageLimitHi)
      && (r.faultStatus[c.ipOvBit] <==>
            e.faultStatus[c.ipOvBit] && e.vacRms.sqrOutput >= c.inputOverVoltageLimitLo)
      && (forall i :: 0 <= i < WIDTH && r.faultStatus[i] ==> e.faultStatus[i])
  {
    var m1 := ClearIf(e.faultStatus, e.vacRms.sqrOutput >= c.inputUnderVoltageLimitHi, c.ipUvBit);
    var m2 := ClearIf(m1, e.vacRms.sqrOutput < c.inputOverVoltageLimitLo, c.ipOvBit);
    assert Dispatch(c, e, ext).faultStatus == m2;
  }

  /** FAULT: the controller returns to CTRL_RUN exactly when the mask has
      become empty, with both integrators zeroed, the reference reseeded
      from the DC-bus average and the outputs on; otherwise it stays in FAULT
      with the outputs off. */
  lemma FaultCycleExit(c: Config, e: PfcData, ext: External)
    requires e.state == Fault
    ensures var r := Dispatch(c, e, ext);
      && (r.state == CtrlRun <==> r.faultStatus == None())
      && (r.state == Fault || r.state == CtrlRun)
      && (r.state == CtrlRun ==>
            r.piVoltage.integralOut == 0 && r.piCurrent.integralOut == 0
            && r.piVoltage.reference == e.vdcAvg.output && r.outputsEnabled)
      && (r.state == Fault ==> !r.outputsEnabled)
  {
  }

  /** FAULT with only known codes: the controller leaves FAULT exactly when
      the output over-voltage code is not set and each input code that is
      set meets its recovery threshold (the hysteresis band of the trip
      thresholds). */
  lemma FaultRecovery(c: Config, e: PfcData, ext: External)
    requires ValidConfig(c) && e.state == Fault && KnownFaults(c, e.faultStatus)
    ensures var r := Dispatch(c, e, ext);
      r.state == CtrlRun <==>
        && !e.faultStatus[c.opOvBit]
        && (!e.faultStatus[c.ipUvBit] || e.vacRms.sqrOutput >= c.inputUnderVoltageLimitHi)
        && (!e.faultStatus[c.ipOvBit] || e.vacRms.sqrOutput < c.inputOverVoltageLimitLo)
  {
    var r := Dispatch(c, e, ext);
    FaultCycleCodes(c, e, ext);
    FaultCycleExit(c, e, ext);
    FaultKeepsKnown(c, e, ext);
    EmptyIffNoCode(r.faultStatus, c.opOvBit, c.ipUvBit, c.ipOvBit);
  }

  lemma FaultKeepsKnown(c: Config, e: PfcData, ext: External)
    requires ValidConfig(c) && e.state == Fault && KnownFaults(c, e.faultStatus)
    ensures KnownFaults(c, Dispatch(c, e, ext).faultStatus)
  {
    FaultCycleCodes(c, e, ext);
  }

  /** Unknown phase values: the cycle does nothing beyond the estimators. */
  lemma OtherCycle(c: Config, e: PfcData, ext: External)
    requires e.state.Other?
    ensures Dispatch(c, e, ext) == e
  {
  }

  /** Output over-voltage latches: once its code is in the mask in FAULT,
      every later cycle stays in FAULT with the code set, the duty 0 and the
      outputs off. */
  lemma {:induction false} OverVoltageLatches(c: Config, d: PfcData, cycles: seq<Cycle>)
    requires ValidConfig(c) && WellFormed(d)
    requires d.state == Fault && d.faultStatus[c.opOvBit]
    ensures var r := Run(c, d, cycles);
      && r.state == Fault && r.faultStatus[c.opOvBit]
      && (cycles != [] ==> r.duty == 0 && !r.outputsEnabled)
  {
    if cycles != [] {
      var prefix := cycles[..|cycles| - 1];
      OverVoltageLatches(c, d, prefix);
      var p := Run(c, d, prefix);
      var last := cycles[|cycles| - 1];
      var q := p.(voltage := p.voltage.(vdc := last.sample.vdc, vac := last.sample.vac),
                  current := p.current.(iL := last.sample.iL));
      var e := Estimate(q);
      FaultCycleCodes(c, e, last.ext);
      FaultCycleExit(c, e, last.ext);
    }
  }

  // ---------------------------------------------------------------------
  // Soft start
  // ---------------------------------------------------------------------

  /** One soft-start step: below the setpoint, a step of exactly `RAMP_COUNT`
      (with the counter reloaded) when the counter is 0, else one count
      down; at or above it, the reference is pinned to the setpoint. The
      reference stays below setpoint plus `RAMP_COUNT`, and the counter
      within its reload value. */
  lemma SoftStartStep(c: Config, reference: Int16, rampRate: nat)
    requires ValidConfig(c) && rampRate <= c.rampRate
    ensures var r := SoftStart(c, reference, rampRate);
      && r.rampRate <= c.rampRate
      && r.reference < c.outputVoltageRef + c.rampCount
      && (reference >= c.outputVoltageRef ==> r == Ramp(c.outputVoltageRef, rampRate))
      && (reference < c.outputVoltageRef && rampRate == 0 ==>
            r == Ramp(reference + c.rampCount, c.rampRate))
      && (reference < c.outputVoltageRef && rampRate > 0 ==> r == Ramp(reference, rampRate - 1))
  {
  }

  /** `n` soft-start steps. */
  function SoftStartRun(c: Config, ramp: Ramp, n: nat): Ramp
  {
    if n == 0 then ramp
    else
      var p := SoftStartRun(c, ramp, n - 1);
      SoftStart(c, p.reference, p.rampRate)
  }

  /** Below the setpoint the reference holds while the counter counts down. */
  lemma {:induction false} SoftStartHolds(c: Config, reference: Int16, k: nat, n: nat)
    requires reference < c.outputVoltageRef && n <= k
    ensures SoftStartRun(c, Ramp(reference, k), n) == Ramp(reference, k - n)
  {
    if n > 0 {
      SoftStartHolds(c, reference, k, n - 1);
    }
  }

  /** The cadence of the soft start: from a counter at `k`, the reference
      holds for `k` cycles and moves up by `RAMP_COUNT` on cycle `k + 1`,
      reloading the counter; after a reload the step comes every
      `RAMP_RATE + 1` cycles. */
  lemma SoftStartCadence(c: Config, reference: Int16, k: nat)
    requires ValidConfig(c) && reference < c.outputVoltageRef
    ensures SoftStartRun(c, Ramp(reference, k), k + 1) == Ramp(reference + c.rampCount, c.rampRate)
  {
    SoftStartHolds(c, reference, k, k);
  }

  /** The last step may overshoot the setpoint (by less than `RAMP_COUNT`);
      the next step sets the reference back to the setpoint. */
  lemma SoftStartOvershoot(c: Config)
    requires ValidConfig(c) && c.rampCount >= 2 && c.outputVoltageRef > -0x8000
    ensures var r := SoftStart(c, c.outputVoltageRef - 1, 0);
      && r.reference > c.outputVoltageRef
      && SoftStart(c, r.reference, r.rampRate).reference == c.outputVoltageRef
  {
  }

  /** At a zero crossing the ideal-duty divide is `vdc / vdc`, whose quotient
      1 is outside the Q15 range; narrowing it gives -0x8000. */
  lemma ZeroCrossingRatio(vdc: Int16)
    requires vdc > 0
    ensures BoostDutyRatio(vdc, 0) == -0x8000
  {
    assert vdc * 0x8000 / vdc == 0x8000;
  }

  /** When the ideal duty ratio is not positive the sample is still scaled,
      by Q15(0.9999): 10000 becomes 9998. */
  lemma CorrectionNearOne()
    ensures CurrentSampleCorrection(10000, 5, 0) == 9998
  {
  }

  // ---------------------------------------------------------------------
  // Current reference
  // ---------------------------------------------------------------------

  /** `PFC_CurrentRefGenerate`: when the divider is past
      `VOLTAGE_LOOP_EXE_RATE` the voltage loop runs on the error of this
      cycle (gain halved for a large error) and the divider restarts;
      otherwise the divider counts up and the voltage loop is untouched; the
      reference of the voltage loop is never changed here, and the current
      reference always ends within [0, Q15(0.999)] (unchanged when the
      power-balance option is off and it was already in range). */
  lemma CurrentRefGenerateEffect(c: Config, d: PfcData, u: PiUpdate)
    ensures var r := CurrentRefGenerate(c, d, u);
      && r.piVoltage.reference == d.piVoltage.reference
      && 0 <= r.currentReference <= CURRENT_REFERENCE_MAX
      && (d.voltLoopExeRate > c.voltageLoopExeRate ==>
            var error := Wrap16(d.piVoltage.reference - d.vdcAvg.output);
            && r.voltLoopExeRate == 0
            && r.piVoltage.error == error
            && (error > LARGE_VOLTAGE_ERROR || error < -LARGE_VOLTAGE_ERROR ==>
                  2 * r.piVoltage.ki <= c.kiV <= 2 * r.piVoltage.ki + 1)
            && (-LARGE_VOLTAGE_ERROR <= error <= LARGE_VOLTAGE_ERROR ==> r.piVoltage.ki == c.kiV)
            && r.piVoltage.output == u.output && r.piVoltage.integralOut == u.integralOut)
      && (d.voltLoopExeRate <= c.voltageLoopExeRate ==>
            r.voltLoopExeRate == d.voltLoopExeRate + 1 && r.piVoltage == d.piVoltage)
      && (!c.powerControl && 0 <= d.currentReference <= CURRENT_REFERENCE_MAX ==>
            r.currentReference == d.currentReference)
  {
  }

  /** `n` current-reference steps fed with the voltage-loop updates `us`. */
  function RefRun(c: Config, d: PfcData, us: seq<PiUpdate>): PfcData
  {
    if us == [] then d
    else CurrentRefGenerate(c, RefRun(c, d, us[..|us| - 1]), us[|us| - 1])
  }

  /** While the divider has not passed `VOLTAGE_LOOP_EXE_RATE`, each cycle
      counts it up and leaves the voltage loop alone. */
  lemma {:induction false} DividerCounts(c: Config, d: PfcData, us: seq<PiUpdate>)
    requires d.voltLoopExeRate + |us| <= c.voltageLoopExeRate + 1
    ensures var r := RefRun(c, d, us);
      r.voltLoopExeRate == d.voltLoopExeRate + |us| && r.piVoltage == d.piVoltage
  {
    if us != [] {
      DividerCounts(c, d, us[..|us| - 1]);
    }
  }

  /** The rate of the voltage loop: from a restarted divider, the loop runs
      first on cycle `VOLTAGE_LOOP_EXE_RATE + 2`, taking that cycle's update
      and restarting the divider. */
  lemma DividerFires(c: Config, d: PfcData, us: seq<PiUpdate>)
    requires d.voltLoopExeRate == 0 && |us| == c.voltageLoopExeRate + 2
    ensures var r := RefRun(c, d, us);
      && r.voltLoopExeRate == 0
      && r.piVoltage.output == us[|us| - 1].output
      && r.piVoltage.integralOut == us[|us| - 1].integralOut
      && RefRun(c, d, us[..|us| - 1]).piVoltage == d.piVoltage
  {
    DividerCounts(c, d, us[..|us| - 1]);
  }

  // ---------------------------------------------------------------------
  // Current loop
  // ---------------------------------------------------------------------

  /** `PFC_CurrentControlLoop`: the current sample is the raw one with
      negatives replaced by 1; the average current lies between 0 and it
      (and is it when sample correction is off); the duty is within
      [PFC_MIN_DUTY, PFC_MAX_DUTY], equal to the raw duty when that is in
      range; the integrator is forced to `KI_I_INTGRAL_OUT_MAX` exactly when
      the raw duty is above the top, and is the PI's otherwise. */
  lemma CurrentLoopBounds(c: Config, d: PfcData, u: PiUpdate)
    requires c.minDuty <= c.maxDuty
    ensures var r := CurrentControlLoop(c, d, u); var raw := RawDuty(c, u.output);
      && r.iL == (if d.iL < 0 then 1 else d.iL)
      && 0 <= r.averageCurrent <= r.iL
      && (d.sampleCorrectionEnable != 1 ==> r.averageCurrent == r.iL)
      && c.minDuty <= r.duty <= c.maxDuty
      && (c.minDuty <= raw <= c.maxDuty ==> r.duty == raw)
      && (raw > c.maxDuty ==> r.duty == c.maxDuty && r.piCurrent.integralOut == c.kiIIntegralOutMax)
      && (raw <= c.maxDuty ==> r.piCurrent.integralOut == u.integralOut)
      && r.piCurrent.output == u.output
  {
  }

  /** For a non-negative output and period the duty count is the output's
      share of the period, `output * PFC_LOOPTIME_TCY / 2^15`, never above
      the period, with no 16-bit wrap. */
  lemma RawDutyProportional(c: Config, output: Int16)
    requires 0 <= output && 0 <= c.loopTimeTcy
    ensures RawDuty(c, output) == output * c.loopTimeTcy / 0x8000 <= c.loopTimeTcy
  {
    assert Pow2(15) == 0x8000;
    var s := Shr(output * c.loopTimeTcy, 15);
    assert 0 <= output * c.loopTimeTcy <= 0x8000 * c.loopTimeTcy;
    FloorDivBounds(output * c.loopTimeTcy, 0x8000);
    assert s * 0x8000 <= output * c.loopTimeTcy;
    LessFromProducts(s, c.loopTimeTcy + 1, 0x8000);
  }

  /** The control work of a fault-free CTRL_RUN cycle leaves the phase, the
      mask, the outputs and the estimates alone. */
  lemma RunControlKeeps(c: Config, d: PfcData, ext: External)
    ensures var r := RunControl(c, d, ext);
      && r.vdcAvg == d.vdcAvg && r.vacAvg == d.vacAvg && r.vacRms == d.vacRms
      && r.voltage == d.voltage && r.rectifiedVac == d.rectifiedVac
      && r.state == d.state && r.faultStatus == d.faultStatus && r.outputsEnabled == d.outputsEnabled
  {
  }

  /** The counters of a fault-free CTRL_RUN cycle stay within their reload
      values, and the voltage loop's output is the previous one or this
      cycle's update. */
  lemma RunControlCounters(c: Config, d: PfcData, ext: External)
    requires d.rampRate <= c.rampRate && d.voltLoopExeRate <= c.voltageLoopExeRate + 1
    ensures var r := RunControl(c, d, ext);
      && r.rampRate <= c.rampRate
      && r.voltLoopExeRate <= c.voltageLoopExeRate + 1
      && (r.piVoltage.output == d.piVoltage.output || r.piVoltage.output == ext.voltagePi.output)
  {
  }

  /** The control work of a fault-free CTRL_RUN cycle: the soft-start step
      sets the voltage reference, the current reference ends in range, the
      current sample is non-negative, and the standby override decides the
      duty: 0 with the current integrator zeroed when the voltage loop's
      output is below `PFC_MIN_CURRENTREF_PEAK_Q15`, else within the duty
      limits. Phase, mask and outputs are untouched. */
  lemma RunControlCycle(c: Config, d: PfcData, ext: External)
    requires c.minDuty <= c.maxDuty
    ensures var r := RunControl(c, d, ext);
      && r.state == d.state && r.faultStatus == d.faultStatus && r.outputsEnabled == d.outputsEnabled
      && r.piVoltage.reference == SoftStart(c, d.piVoltage.reference, d.rampRate).reference
      && 0 <= r.currentReference <= CURRENT_REFERENCE_MAX
      && 0 <= r.iL
      && r.piCurrent.output == ext.currentPi.output
      && (r.piVoltage.output < c.minCurrentRefPeak ==> r.duty == 0 && r.piCurrent.integralOut == 0)
      && (r.piVoltage.output >= c.minCurrentRefPeak ==> c.minDuty <= r.duty <= c.maxDuty)
  {
    var ramp := SoftStart(c, d.piVoltage.reference, d.rampRate);
    var d1 := d.(piVoltage := d.piVoltage.(reference := ramp.reference), rampRate := ramp.rampRate);
    var d2 := CurrentRefGenerate(c, d1, ext.voltagePi);
    var d3 :=
      if d2.voltage.vdc > 0 then d2.(boostDutyRatio := BoostDutyRatio(d2.voltage.vdc, d2.rectifiedVac))
      else d2;
    CurrentLoopBounds(c, d3, ext.currentPi);
  }
}
