/** The controller aggregate `PFC_T` of project/pfc/pfc.c as an object whose
    routines update it in place, statement by statement as the C code does
    through its `PFC_T *` argument. The object holds the aggregate as one
    record `data`; each C assignment `pfcData->m = v` is the update
    `data := data.(m := v)`. Each routine is proved to leave `data` exactly as
    the matching function of pfc_spec.dfy says, so everything proved about
    those functions in pfc_properties.dfy holds of the object. */
module PfcControl {
  import opened FixedPoint
  import opened Estimators
  import opened FaultMask
  import opened PfcSpec
  import opened PfcProperties

  class Pfc {
    /** The constants the build takes from its header file. */
    const cfg: Config
    /** The global `pfcParam`. */
    var data: PfcData

    /** `pfcParam` in zero-initialised static storage. */
    constructor (c: Config)
      ensures cfg == c && data == ZeroData()
    {
      cfg := c;
      data := ZeroData();
    }

    /** `PFC_ServiceInit` without the ADC interrupt masking around it: on
        zeroed storage and a consistent configuration it establishes the
        invariant every cycle keeps. */
    method ServiceInit()
      modifies this
      ensures data == PfcSpec.ParamsInit(cfg, old(data))
      ensures old(data) == ZeroData() && ValidConfig(cfg) ==>
        Inv(cfg, data) && data.state == Init && data.faultStatus == None() && !data.outputsEnabled
    {
      ParamsInit();
      if old(data) == ZeroData() && ValidConfig(cfg) {
        InitialInvariant(cfg);
      }
    }

    /** `PFC_ParamsInit`. */
    method ParamsInit()
      modifies this
      ensures data == PfcSpec.ParamsInit(cfg, old(data))
    {
      data := data.(vacRms := data.vacRms.(sampleLimit := cfg.rmsLimit));
      data := data.(vdcAvg := data.vdcAvg.(scaler := cfg.avgScaler));
      data := data.(vdcAvg := data.vdcAvg.(sampleLimit := Pow2(data.vdcAvg.scaler)));
      data := data.(vacAvg := data.vacAvg.(sampleLimit := cfg.vacAvgLimit));

      data := data.(piCurrent := data.piCurrent.(kp := cfg.kpI, ki := cfg.kiI));
      data := data.(piCurrent := data.piCurrent.(kpScale := cfg.kpIScale, kiScale := cfg.kiIScale));
      data := data.(piCurrent := data.piCurrent.(maxOutput := INT16_MAX, minOutput := 0));

      data := data.(piVoltage := data.piVoltage.(kp := cfg.kpV, ki := cfg.kiV));
      data := data.(piVoltage := data.piVoltage.(kpScale := cfg.kpVScale, kiScale := cfg.kiVScale));
      data := data.(piVoltage := data.piVoltage.(maxOutput := INT16_MAX, minOutput := 0));

      data := data.(state := Init);
      data := data.(faultStatus := None());
      data := data.(sampleCorrectionEnable := 0);
    }

    /** `PFC_ResetParams`. */
    method ResetParams()
      modifies this
      ensures data == PfcSpec.ResetParams(old(data))
    {
      data := data.(vdcAvg := data.vdcAvg.(sum := 0, samples := 0, status := 0));
      data := data.(vacAvg := data.vacAvg.(sum := 0, samples := 0));
      data := data.(vacRms := data.vacRms.(sum := 0, samples := 0, peak := 0, status := 0));
      data := data.(piVoltage := data.piVoltage.(integralOut := 0));
      data := data.(piCurrent := data.piCurrent.(integralOut := 0));
      data := data.(duty := 0);
    }

    /** `PFC_FaultCheck`. */
    method FaultCheck()
      modifies this
      ensures data == PfcSpec.FaultCheck(cfg, old(data))
    {
      if data.vdcAvg.output >= cfg.outputOverVoltageLimit {
        data := data.(faultStatus := Plus(data.faultStatus, Code(cfg.opOvBit)));
      }
      if data.vacRms.sqrOutput < cfg.inputUnderVoltageLimitLo {
        data := data.(faultStatus := Plus(data.faultStatus, Code(cfg.ipUvBit)));
      }
      if data.vacRms.sqrOutput >= cfg.inputOverVoltageLimitHi {
        data := data.(faultStatus := Plus(data.faultStatus, Code(cfg.ipOvBit)));
      }
    }

    /** `PFC_CurrentRefGenerate`; `u` is what the voltage loop's
        `PFC_PIController` call leaves in its record. */
    method CurrentRefGenerate(u: PiUpdate)
      modifies this
      ensures data == PfcSpec.CurrentRefGenerate(cfg, old(data), u)
    {
      if data.voltLoopExeRate > cfg.voltageLoopExeRate {
        data := data.(piVoltage := data.piVoltage.(error := Wrap16(data.piVoltage.reference - data.vdcAvg.output)));
        data := data.(piVoltage := data.piVoltage.(ki := VoltageKi(cfg, data.piVoltage.error)));
        data := data.(piVoltage := data.piVoltage.(output := u.output, integralOut := u.integralOut));
        data := data.(voltLoopExeRate := 0);
      } else {
        data := data.(voltLoopExeRate := data.voltLoopExeRate + 1);
      }

      if cfg.powerControl {
        var reference := PowerBalanceReference(cfg, data.piVoltage.output, data.rectifiedVac, data.vacRms.sqrOutput);
        data := data.(currentReference := reference);
      }

      if data.currentReference > CURRENT_REFERENCE_MAX {
        data := data.(currentReference := CURRENT_REFERENCE_MAX);
      } else if data.currentReference < 0 {
        data := data.(currentReference := 0);
      }
    }

    /** `PFC_CurrentControlLoop`; `u` is what the current loop's
        `PFC_PIController` call leaves in its record. */
    method CurrentControlLoop(u: PiUpdate)
      modifies this
      ensures data == PfcSpec.CurrentControlLoop(cfg, old(data), u)
    {
      if data.iL < 0 {
        data := data.(iL := 1);
      }
      if data.sampleCorrectionEnable == 1 {
        var corrected := CurrentSampleCorrection(data.iL, data.piCurrent.output, data.boostDutyRatio);
        data := data.(averageCurrent := corrected);
      } else {
        data := data.(averageCurrent := data.iL);
      }

      data := data.(piCurrent := data.piCurrent.(output := u.output, integralOut := u.integralOut));

      var rawDuty := RawDuty(cfg, data.piCurrent.output);
      if rawDuty > cfg.maxDuty {
        data := data.(duty := cfg.maxDuty);
        data := data.(piCurrent := data.piCurrent.(integralOut := cfg.kiIIntegralOutMax));
      } else if rawDuty < cfg.minDuty {
        data := data.(duty := cfg.minDuty);
      } else {
        data := data.(duty := rawDuty);
      }
    }

    /** `PFC_StateMachine`; `ext` holds what the external routines it calls
        (current-offset calibration, the two PI updates) leave behind. */
    method StateMachine(ext: External)
      requires WellFormed(data)
      modifies this
      ensures data == PfcSpec.StateMachine(cfg, old(data), ext)
    {
      var pfcState := data.state;

      Estimate();

      match pfcState {
        case Init =>
          ResetParams();
          data := data.(outputsEnabled := false);
          pfcState := OffsetMeas;
        case OffsetMeas =>
          data := data.(current := data.current.(status := ext.calibration.status, offset := ext.calibration.offset));
          if data.current.status == 1 {
            if data.vacAvg.status == 1 {
              data := data.(piVoltage := data.piVoltage.(reference := data.vdcAvg.output));
              data := data.(voltage := data.voltage.(offsetVac := data.vacAvg.output));
              pfcState := Wait1Cycle;
            }
          }
        case Wait1Cycle =>
          if data.vacRms.status == 1 {
            data := data.(outputsEnabled := true);
            pfcState := CtrlRun;
          }
        case CtrlRun =>
          pfcState := CtrlRunPhase(ext);
        case Fault =>
          pfcState := FaultPhase();
        case Other(_) =>
      }

      data := data.(state := pfcState);
    }

    /** The estimators at the head of every cycle: `PFC_Average` on the
        DC-bus and AC samples, the AC average as the AC offset,
        `PFC_SignalRectification` and `PFC_SquaredRMSCalculate`. */
    method Estimate()
      requires WellFormed(data)
      modifies this
      ensures data == PfcSpec.Estimate(old(data))
    {
      data := data.(vdcAvg := AverageStep(data.vdcAvg, data.voltage.vdc));
      data := data.(vacAvg := AverageStep(data.vacAvg, data.voltage.vac));
      data := data.(voltage := data.voltage.(offsetVac := data.vacAvg.output));
      data := data.(rectifiedVac := Rectify(data.voltage));
      data := data.(vacRms := RmsStep(data.vacRms, data.rectifiedVac));
    }

    /** The CTRL_RUN case of `PFC_StateMachine`; `next` is the phase the
        cycle stores. */
    method CtrlRunPhase(ext: External) returns (next: State)
      requires data.state == CtrlRun
      modifies this
      ensures data.(state := next) == PfcSpec.CtrlRunPhase(cfg, old(data), ext)
    {
      next := CtrlRun;
      ghost var checked := PfcSpec.FaultCheck(cfg, OffsetCorrect(cfg, data));
      if cfg.currentOffsetCorrection {
        data := data.(iL := Wrap16(data.current.iL - data.current.offset));
      }
      FaultCheck();
      assert data == checked;
      if data.faultStatus == None() {
        RunControl(ext);
      } else {
        next := Fault;
      }
    }

    /** The FAULT case of `PFC_StateMachine`; `next` is the phase the cycle
        stores. */
    method FaultPhase() returns (next: State)
      requires data.state == Fault
      modifies this
      ensures data.(state := next) == PfcSpec.FaultPhase(cfg, old(data))
    {
      next := Fault;
      data := data.(duty := 0);
      data := data.(outputsEnabled := false);
      if data.vacRms.sqrOutput >= cfg.inputUnderVoltageLimitHi {
        data := data.(faultStatus := AndNot(data.faultStatus, Code(cfg.ipUvBit)));
      }
      if data.vacRms.sqrOutput < cfg.inputOverVoltageLimitLo {
        data := data.(faultStatus := AndNot(data.faultStatus, Code(cfg.ipOvBit)));
      }
      if data.faultStatus == None() {
        data := data.(piVoltage := data.piVoltage.(integralOut := 0));
        data := data.(piCurrent := data.piCurrent.(integralOut := 0));
        data := data.(piVoltage := data.piVoltage.(reference := data.vdcAvg.output));
        next := CtrlRun;
        data := data.(outputsEnabled := true);
      }
    }

    /** The soft start of a fault-free CTRL_RUN cycle. */
    method SoftStartStep()
      modifies this
      ensures var ramp := SoftStart(cfg, old(data).piVoltage.reference, old(data).rampRate);
        data == old(data).(piVoltage := old(data).piVoltage.(reference := ramp.reference), rampRate := ramp.rampRate)
    {
      if data.piVoltage.reference < cfg.outputVoltageRef {
        if data.rampRate == 0 {
          data := data.(piVoltage := data.piVoltage.(reference := Wrap16(data.piVoltage.reference + cfg.rampCount)));
          data := data.(rampRate := cfg.rampRate);
        } else {
          data := data.(rampRate := data.rampRate - 1);
        }
      } else {
        data := data.(piVoltage := data.piVoltage.(reference := cfg.outputVoltageRef));
      }
    }

    /** The fault-free work of CTRL_RUN: soft start, current reference, ideal
        boost duty ratio, current loop and the standby override. */
    method RunControl(ext: External)
      modifies this
      ensures data == PfcSpec.RunControl(cfg, old(data), ext)
    {
      SoftStartStep();
      CurrentRefGenerate(ext.voltagePi);
      if data.voltage.vdc > 0 {
        data := data.(boostDutyRatio := BoostDutyRatio(data.voltage.vdc, data.rectifiedVac));
      }
      CurrentControlLoop(ext.currentPi);
      if data.piVoltage.output < cfg.minCurrentRefPeak {
        data := data.(duty := 0);
        data := data.(piCurrent := data.piCurrent.(integralOut := 0));
      }
    }

    /** `PFC_ADCInterrupt` without its register accesses: latch the three
        readings, run one state-machine cycle, and return the duty for the PWM
        duty register. Under the invariant, and with PI outputs in their
        clamp, the invariant holds again and the duty is either 0 or within
        [PFC_MIN_DUTY, PFC_MAX_DUTY]. */
    method Tick(sample: Sample, ext: External) returns (pwmDuty: Uint16)
      requires WellFormed(data)
      modifies this
      ensures data == PfcSpec.Tick(cfg, old(data), sample, ext)
      ensures pwmDuty == data.duty
      ensures Inv(cfg, old(data)) && PiOutputsOk(ext) ==>
        Inv(cfg, data) && (pwmDuty == 0 || cfg.minDuty <= pwmDuty <= cfg.maxDuty)
    {
      data := data.(voltage := data.voltage.(vdc := sample.vdc, vac := sample.vac));
      data := data.(current := data.current.(iL := sample.iL));
      StateMachine(ext);
      pwmDuty := data.duty;
      if Inv(cfg, old(data)) && PiOutputsOk(ext) {
        TickKeepsInv(cfg, old(data), sample, ext);
      }
    }
  }
}
