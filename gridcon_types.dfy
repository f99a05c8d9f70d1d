/**
 * The vocabulary of the MR Gridcon power-conversion-system driver: the
 * operating-state enumerations, the fault channels, the named channels the
 * driver reads and stages writes to, and the staged writes themselves.
 */
module GridconTypes {
  import opened Wrappers

  /** The CCU operating state decoded from the thirteen state bits (enums.CCUState). */
  datatype CCUState =
    | Idle | Precharge | StopPrecharge | Ready | Pause | Run | Error
    | VoltageRampingUp | Overload | ShortCircuitDetected | DeratingPower
    | DeratingHarmonics | SiaActive | Undefined

  /** The grid mode published on the GRID_MODE channel. */
  datatype GridMode = OnGrid | OffGrid | UndefinedGridMode

  /** The driver's own state machine (enums.StateMachine); Idle is declared but never produced. */
  datatype StateMachine = IdleState | OngridNormalOperation | UndefinedState

  /** The two fault enumerations, ErrorCodeChannelId and ErrorCodeChannelId1. */
  datatype ErrorFamily = ErrorCodes | ErrorCodes1

  /**
   * One fault channel: which enumeration and which constant of it, the fault
   * code its documentation carries and whether it needs a hardware restart.
   */
  datatype ErrorChannel = ErrorChannel(family: ErrorFamily, ordinal: nat, code: int, needsHardReset: bool)

  datatype BatteryString = StringA | StringB | StringC

  /** The configured number of inverters (InverterCount ONE, TWO, THREE). */
  type InverterCount = n: int | 1 <= n <= 3 witness 1

  /**
   * The outcome of resolving a configured address through the component
   * manager: the component or channel found, or the exception thrown.
   */
  datatype Lookup<T> = Found(value: T) | LookupFailed

  /** An inverter power unit IPU 1..3, or the DC/DC stage that sits in the next IPU slot. */
  datatype Unit = Ipu(k: nat) | Dcdc

  /** The bits of the two command control words. */
  datatype CommandBit =
    | DisableIpu(k: nat) | Play | ReadyCommand | Acknowledge | Stop
    | BlackstartApproval | SyncApproval | ActivateShortCircuitHandling | ModeSelection
    | TriggerSia | ActivateHarmonicCompensation | SdCardParameterSet(k: nat)

  datatype CcuMeasurement =
    | VoltageU12 | VoltageU23 | VoltageU31 | CurrentIL1 | CurrentIL2 | CurrentIL3
    | PowerP | PowerQ | Frequency

  datatype ControlParameter =
    | UQDroopMain | UQDroopT1Main | FPDroopMain | FPDroopT1Main | QUDroopMain
    | QUDeadBand | QLimit | PFDroopMain | PFDeadBand | PUDroop | PUDeadBand
    | PUMaxCharge | PUMaxDischarge | PControlMode | PControlLimTwo | PControlLimOne

  /** The status block layout shared by every IPU and the DC/DC stage. */
  datatype StatusField =
    | StateMachineStatus | Mcu | FilterCurrent | DcLinkPositiveVoltage
    | DcLinkNegativeVoltage | DcLinkCurrent | DcLinkActivePower | DcLinkUtilization
    | FanSpeedMax | FanSpeedMin | TemperatureIgbtMax | TemperatureMcuBoard
    | TemperatureGridChoke | TemperatureInverterChoke | Reserve1 | Reserve2 | Reserve3

  datatype IpuControlField =
    | DcVoltageSetpoint | DcCurrentSetpoint | U0OffsetToCcuValue | F0OffsetToCcuValue
    | QRefOffsetToCcuValue | PRefOffsetToCcuValue | PMaxDischarge | PMaxCharge

  datatype DcdcControlField =
    | DcdcVoltageSetpoint | WeightString(s: BatteryString) | IRefString(s: BatteryString)
    | StringControlMode

  datatype DcdcMeasurement =
    | VoltageString(s: BatteryString) | CurrentString(s: BatteryString)
    | PowerString(s: BatteryString) | UtilizationString(s: BatteryString)
    | AccumulatedSumDcCurrent | AccumulatedDcUtilization
    | MeasurementReserve1 | MeasurementReserve2

  /** Every channel the driver reads, or stages a value for. */
  datatype Channel =
    // Modbus-mapped channels of the device
    | CcuStateFlag(state: CCUState)
    | CcuErrorCode
    | Ccu(m: CcuMeasurement)
    | Command(bit: CommandBit)
    | CommandErrorCodeFeedback | CommandU0 | CommandF0 | CommandQRef | CommandPRef
    | TimeSyncDate | TimeSyncTime
    | Control(p: ControlParameter)
    | Status(unit: Unit, f: StatusField)
    | IpuControl(k: nat, c: IpuControlField)
    | DcdcControl(d: DcdcControlField)
    | DcdcMeasured(dm: DcdcMeasurement)
    // calculated channels of the component
    | GridModeChannel | StateCycleError | AllowedCharge | AllowedDischarge
    | ErrorFlag(e: ErrorChannel)
    // digital outputs of other components, addressed through the configuration
    | HardResetOutput | SyncDeviceBridgeOutput

  datatype Value = BoolValue(b: bool) | IntValue(i: int) | RealValue(r: real) | ModeValue(m: GridMode)

  /** A value staged for a channel (setNextValue / setNextWriteValue), applied at the end of the cycle. */
  datatype Write = Write(channel: Channel, value: Value)

  /** The writes of `ws` that target channel `c`, in order. */
  function WritesTo(ws: seq<Write>, c: Channel): (r: seq<Write>)
    ensures |r| <= |ws|
    ensures forall w :: w in r <==> w in ws && w.channel == c
  {
    if ws == [] then []
    else (if ws[0].channel == c then [ws[0]] else []) + WritesTo(ws[1..], c)
  }

  /**
   * The value channel `c` holds once the writes `ws` have been staged in
   * order: the last write to it wins, and None means `ws` does not touch it.
   */
  function LastValue(ws: seq<Write>, c: Channel): Option<Value>
  {
    if ws == [] then None
    else if ws[|ws| - 1].channel == c then Some(ws[|ws| - 1].value)
    else LastValue(ws[..|ws| - 1], c)
  }

  /** A channel has a staged value exactly when some write targets it, and that value was written to it. */
  lemma {:induction false} LastValueWritten(ws: seq<Write>, c: Channel)
    ensures LastValue(ws, c).None? <==> forall w :: w in ws ==> w.channel != c
    ensures LastValue(ws, c).Some? ==> Write(c, LastValue(ws, c).value) in ws
  {
    if ws != [] && ws[|ws| - 1].channel != c {
      var init := ws[..|ws| - 1];
      LastValueWritten(init, c);
      assert forall w :: w in ws <==> w in init || w == ws[|ws| - 1];
    }
  }
}
