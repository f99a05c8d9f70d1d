/**
 * The general command block of the Gridcon driver (prepareGeneralCommands,
 * writeCCUControlParameters): fixed CCU references, the clock, the CCU
 * control parameters and full-power IPU limits. prepareGeneralCommands is
 * declared but not called from the driver's state machine.
 */
module GeneralCommands {
  import opened Wrappers
  import opened GridconTypes
  import opened TimeSync
  import opened StringWeighting

  /** MAX_CHARGE_W and MAX_DISCHARGE_W: 86 kW per IPU. */
  const MaxPowerW: real := 86000.0

  /** The charge and discharge limits of the three IPUs in the general commands. */
  function FullPowerLimits(): (limits: seq<real>)
    ensures |limits| == 3 && forall i :: 0 <= i < 3 ==> limits[i] == MaxPowerW
  {
    [MaxPowerW, MaxPowerW, MaxPowerW]
  }

  /** writeCCUControlParameters: every CCU control parameter is zero except Q limit 1 and the P control mode, which is written last. */
  function WriteCcuControlParameters(mode: real): (ws: seq<Write>)
    ensures |ws| == 16 && ws[15] == Write(Control(PControlMode), RealValue(mode))
  {
    [Write(Control(UQDroopMain), RealValue(0.0)),
     Write(Control(UQDroopT1Main), RealValue(0.0)),
     Write(Control(FPDroopMain), RealValue(0.0)),
     Write(Control(FPDroopT1Main), RealValue(0.0)),
     Write(Control(QUDroopMain), RealValue(0.0)),
     Write(Control(QUDeadBand), RealValue(0.0)),
     Write(Control(QLimit), RealValue(1.0)),
     Write(Control(PFDroopMain), RealValue(0.0)),
     Write(Control(PFDeadBand), RealValue(0.0)),
     Write(Control(PUDroop), RealValue(0.0)),
     Write(Control(PUDeadBand), RealValue(0.0)),
     Write(Control(PUMaxCharge), RealValue(0.0)),
     Write(Control(PUMaxDischarge), RealValue(0.0)),
     Write(Control(PControlLimTwo), RealValue(0.0)),
     Write(Control(PControlLimOne), RealValue(0.0)),
     Write(Control(PControlMode), RealValue(mode))]
  }

  /** writeCCUControlParameters writes only CCU control parameters. */
  lemma CcuControlChannels(mode: real)
    ensures forall w :: w in WriteCcuControlParameters(mode) ==> w.channel.Control?
  {
  }

  /** The position of each parameter's single write in writeCCUControlParameters. */
  function ControlWriteIndex(p: ControlParameter): (i: nat)
    ensures i < 16
  {
    match p
    case UQDroopMain => 0 case UQDroopT1Main => 1 case FPDroopMain => 2 case FPDroopT1Main => 3
    case QUDroopMain => 4 case QUDeadBand => 5 case QLimit => 6 case PFDroopMain => 7
    case PFDeadBand => 8 case PUDroop => 9 case PUDeadBand => 10 case PUMaxCharge => 11
    case PUMaxDischarge => 12 case PControlLimTwo => 13 case PControlLimOne => 14 case PControlMode => 15
  }

  /**
   * After writeCCUControlParameters(mode), on top of any earlier writes, the
   * Q limit is 1, the P control mode is `mode` and every other CCU control
   * parameter is 0.
   */
  lemma CcuControlParametersEffect(prefix: seq<Write>, mode: real, p: ControlParameter)
    ensures LastValue(prefix + WriteCcuControlParameters(mode), Control(p))
         == Some(RealValue(if p == QLimit then 1.0 else if p == PControlMode then mode else 0.0))
  {
    var ws := WriteCcuControlParameters(mode);
    var i := ControlWriteIndex(p);
    assert ws[i].channel == Control(p);
    assert forall j :: i < j < 16 ==> ws[j].channel != Control(p);
    LastValueOfSuffix(prefix, ws, Control(p), i);
  }

  /** The references written before the clock: error feedback, Q and P references 0, U0 1.0 and F0 1.035. */
  function GeneralReferences(): (ws: seq<Write>)
    ensures forall w :: w in ws ==> !w.channel.Control? && !w.channel.IpuControl? && !w.channel.DcdcControl?
  {
    [Write(CommandErrorCodeFeedback, IntValue(0)),
     Write(CommandQRef, IntValue(0)),
     Write(CommandPRef, IntValue(0)),
     Write(CommandU0, RealValue(1.0)),
     Write(CommandF0, RealValue(1.035))]
  }

  /**
   * prepareGeneralCommands: the general references, the clock, the CCU
   * control parameters in active-power-control mode and, once the battery
   * mask has been read, weights 1 and 86 kW limits for every configured IPU.
   * The result's flag says getWeightingMode threw, after the writes before it
   * had been staged.
   */
  function PrepareGeneralCommands(t: DateTime, activePowerControl: real, n: InverterCount, mask: Option<int>): (r: (seq<Write>, bool))
    ensures r.1 <==> mask.None?
  {
    var head := GeneralHead(t, activePowerControl);
    if mask.None? then (head, true)
    else (head + WriteIpuParameters(n, (1.0, 1.0, 1.0), FullPowerLimits(), FullPowerLimits(), mask.value as real), false)
  }

  /** The writes staged before the battery mask is read. */
  function GeneralHead(t: DateTime, activePowerControl: real): seq<Write> {
    GeneralReferences() + WriteDateAndTime(t) + WriteCcuControlParameters(activePowerControl)
  }

  /** The general references give U0 1.0 and F0 1.035. */
  lemma ReferencesEffect()
    ensures LastValue(GeneralReferences(), CommandU0) == Some(RealValue(1.0))
    ensures LastValue(GeneralReferences(), CommandF0) == Some(RealValue(1.035))
  {
    var refs := GeneralReferences();
    assert [] + refs == refs;
    LastValueOfSuffix([], refs, CommandU0, 3);
    LastValueOfSuffix([], refs, CommandF0, 4);
  }

  /** A channel that two suffixes never write keeps the value it had before them. */
  lemma {:induction false} KeptThroughTwo(refs: seq<Write>, first: seq<Write>, second: seq<Write>, c: Channel)
    requires forall w :: w in first ==> w.channel != c
    requires forall w :: w in second ==> w.channel != c
    ensures LastValue(refs + first + second, c) == LastValue(refs, c)
  {
    LastValueSkipsSuffix(refs + first, second, c);
    LastValueSkipsSuffix(refs, first, c);
  }

  /** The general references survive the clock and the CCU parameters. */
  lemma GeneralHeadEffect(t: DateTime, activePowerControl: real)
    ensures var ws := GeneralHead(t, activePowerControl);
      && LastValue(ws, CommandU0) == Some(RealValue(1.0))
      && LastValue(ws, CommandF0) == Some(RealValue(1.035))
      && LastValue(ws, Control(PControlMode)) == Some(RealValue(activePowerControl))
  {
    CcuControlParametersEffect(GeneralReferences() + WriteDateAndTime(t), activePowerControl, PControlMode);
    ReferencesEffect();
    HeadKeepsReference(t, activePowerControl, CommandU0);
    HeadKeepsReference(t, activePowerControl, CommandF0);
  }

  /** Neither the clock nor the CCU parameters write U0 or F0. */
  lemma HeadKeepsReference(t: DateTime, activePowerControl: real, c: Channel)
    requires c == CommandU0 || c == CommandF0
    ensures LastValue(GeneralHead(t, activePowerControl), c) == LastValue(GeneralReferences(), c)
  {
    CcuControlChannels(activePowerControl);
    KeptThroughTwo(GeneralReferences(), WriteDateAndTime(t), WriteCcuControlParameters(activePowerControl), c);
  }

  /**
   * The general commands leave U0 at 1.0 and F0 at 1.035 (never zero), the P
   * control mode as given, and, when the mask was read, every configured IPU
   * limited to 86 kW each way, all weights 1 and the string control mode set
   * to the mask.
   */
  lemma GeneralCommandsEffect(t: DateTime, activePowerControl: real, n: InverterCount, mask: Option<int>, k: nat)
    requires 1 <= k <= n
    ensures var r := PrepareGeneralCommands(t, activePowerControl, n, mask);
      && LastValue(r.0, CommandU0) == Some(RealValue(1.0))
      && LastValue(r.0, CommandF0) == Some(RealValue(1.035))
      && LastValue(r.0, Control(PControlMode)) == Some(RealValue(activePowerControl))
      && (!r.1 ==>
            && LastValue(r.0, IpuControl(k, PMaxDischarge)) == Some(RealValue(-MaxPowerW))
            && LastValue(r.0, IpuControl(k, PMaxCharge)) == Some(RealValue(MaxPowerW))
            && LastValue(r.0, DcdcControl(WeightString(StringA))) == Some(RealValue(1.0))
            && LastValue(r.0, DcdcControl(StringControlMode)) == Some(RealValue(mask.value as real)))
  {
    GeneralHeadEffect(t, activePowerControl);
    if mask.Some? {
      IpuTailEffect(GeneralHead(t, activePowerControl), n, FullPowerLimits(), mask.value as real, k);
    }
  }

  /** Full-power IPU parameters written after a head keep the head's references and set the limits, weight and mode. */
  lemma IpuTailEffect(head: seq<Write>, n: InverterCount, limits: seq<real>, mode: real, k: nat)
    requires |limits| == 3 && 1 <= k <= n
    ensures var ws := head + WriteIpuParameters(n, (1.0, 1.0, 1.0), limits, limits, mode);
      && LastValue(ws, CommandU0) == LastValue(head, CommandU0)
      && LastValue(ws, CommandF0) == LastValue(head, CommandF0)
      && LastValue(ws, Control(PControlMode)) == LastValue(head, Control(PControlMode))
      && LastValue(ws, IpuControl(k, PMaxDischarge)) == Some(RealValue(-limits[k - 1]))
      && LastValue(ws, IpuControl(k, PMaxCharge)) == Some(RealValue(limits[k - 1]))
      && LastValue(ws, DcdcControl(WeightString(StringA))) == Some(RealValue(1.0))
      && LastValue(ws, DcdcControl(StringControlMode)) == Some(RealValue(mode))
  {
    var tail := WriteIpuParameters(n, (1.0, 1.0, 1.0), limits, limits, mode);
    TailKeepsHead(head, n, limits, mode);
    WriteIpuParametersEffect(n, (1.0, 1.0, 1.0), limits, limits, mode, k);
    LastValueAfterPrefix(head, tail, IpuControl(k, PMaxDischarge));
    LastValueAfterPrefix(head, tail, IpuControl(k, PMaxCharge));
    LastValueAfterPrefix(head, tail, DcdcControl(WeightString(StringA)));
    LastValueAfterPrefix(head, tail, DcdcControl(StringControlMode));
  }

  /** The IPU parameters touch no general reference and no CCU parameter. */
  lemma TailKeepsHead(head: seq<Write>, n: InverterCount, limits: seq<real>, mode: real)
    requires |limits| == 3
    ensures var ws := head + WriteIpuParameters(n, (1.0, 1.0, 1.0), limits, limits, mode);
      && LastValue(ws, CommandU0) == LastValue(head, CommandU0)
      && LastValue(ws, CommandF0) == LastValue(head, CommandF0)
      && LastValue(ws, Control(PControlMode)) == LastValue(head, Control(PControlMode))
  {
    var tail := WriteIpuParameters(n, (1.0, 1.0, 1.0), limits, limits, mode);
    WriteIpuParametersChannels(n, (1.0, 1.0, 1.0), limits, limits, mode);
    LastValueSkipsSuffix(head, tail, CommandU0);
    LastValueSkipsSuffix(head, tail, CommandF0);
    LastValueSkipsSuffix(head, tail, Control(PControlMode));
  }

  /** A channel the suffix writes takes its value from the suffix alone, whatever came before. */
  lemma {:induction false} LastValueAfterPrefix(prefix: seq<Write>, suffix: seq<Write>, c: Channel)
    requires LastValue(suffix, c).Some?
    ensures LastValue(prefix + suffix, c) == LastValue(suffix, c)
    decreases |suffix|
  {
    var whole := prefix + suffix;
    assert whole[|whole| - 1] == suffix[|suffix| - 1];
    if suffix[|suffix| - 1].channel != c {
      assert whole[..|whole| - 1] == prefix + suffix[..|suffix| - 1];
      LastValueAfterPrefix(prefix, suffix[..|suffix| - 1], c);
    }
  }
}
