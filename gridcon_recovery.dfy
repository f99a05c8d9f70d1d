/**
 * Fault recovery and the grid-state handlers of the Gridcon driver. Three
 * timestamps survive from one call to the next: when the hardware was
 * switched off for a restart, when ACKNOWLEDGE was last sent and when off-grid
 * operation was first seen. Time is a parameter `now` in milliseconds.
 *
 * Each handler is specified by a pure step function over the timestamps
 * (used by the lemmas that relate several calls), and the class GridconPcs
 * implements it on its fields.
 */
module Recovery {
  import opened Wrappers
  import opened JavaInt
  import opened GridconTypes
  import opened CcuStatus
  import opened Faults
  import opened Commands

  const SwitchOffTimeMs: int := 15_000
  const BootTimeMs: int := 30_000
  const AcknowledgeTimeMs: int := 5_000
  const DoNothingInOffGridMs: int := 5_000
  const DcLinkVoltageSetpoint: real := 800.0
  const DcLinkVoltageTolerance: real := 20.0

  /** The three timestamp fields of the driver. */
  datatype Timestamps = Timestamps(switchedOffAt: Option<int>, lastAckAt: Option<int>, offGridDetected: Option<int>)

  /**
   * The effect of one handler: the new timestamps, and the writes it stages in
   * order: `before`, then one `false` for every fault channel when
   * `clearErrors` holds (resetErrorChannels), then `after`. `raised` records an
   * exception that escaped the handler; the writes staged before it remain.
   */
  datatype Step = Step(timers: Timestamps, before: seq<Write>, clearErrors: bool, after: seq<Write>, raised: bool)

  function Quiet(t: Timestamps): Step { Step(t, [], false, [], false) }

  function Prepend(ws: seq<Write>, s: Step): Step { s.(before := ws + s.before) }

  function Append(s: Step, ws: seq<Write>): Step { s.(after := s.after + ws) }

  function OptionSeq(w: Option<Write>): seq<Write> { if w.Some? then [w.value] else [] }

  /** The writes of one step that target `c`, when the step does not clear the fault channels. */
  function Plain(s: Step): seq<Write> { s.before + s.after }

  /** doHardRestart: when no restart is pending and the hard-reset output resolves, switch it on and record the time. */
  function HardRestart(t: Timestamps, now: int, reachable: bool): (s: Step)
    ensures !s.raised && !s.clearErrors && s.after == []
    ensures s.before != [] <==> t.switchedOffAt.None? && reachable
    ensures s.before != [] ==> s.before == [Write(HardResetOutput, BoolValue(true))] && s.timers == t.(switchedOffAt := Some(now))
    ensures s.before == [] ==> s.timers == t
  {
    if t.switchedOffAt.None? && reachable then
      Step(t.(switchedOffAt := Some(now)), [Write(HardResetOutput, BoolValue(true))], false, [], false)
    else Quiet(t)
  }

  /** A pending restart latches: a second doHardRestart, at any time, stages nothing and keeps the first timestamp. */
  lemma HardRestartLatches(t: Timestamps, now1: int, now2: int, reachable2: bool)
    requires HardRestart(t, now1, true).before != []
    ensures HardRestart(HardRestart(t, now1, true).timers, now2, reachable2) == Quiet(HardRestart(t, now1, true).timers)
    ensures HardRestart(t, now1, true).timers.switchedOffAt == Some(now1)
  {
  }

  /** acknowledgeErrors: send ACKNOWLEDGE when none was sent yet or the last one is more than five seconds old. */
  function AcknowledgeStep(t: Timestamps, now: int): (s: Step)
    ensures !s.raised && !s.clearErrors && s.after == []
    ensures s.before != [] <==> t.lastAckAt.None? || now > t.lastAckAt.value + AcknowledgeTimeMs
    ensures s.before != [] ==> s.before == [StageBoolean(BoolCall(Acknowledge, true))] && s.timers == t.(lastAckAt := Some(now))
    ensures s.before == [] ==> s.timers == t
  {
    if t.lastAckAt.None? || now > t.lastAckAt.value + AcknowledgeTimeMs then
      Step(t.(lastAckAt := Some(now)), [StageBoolean(BoolCall(Acknowledge, true))], false, [], false)
    else Quiet(t)
  }

  /** Two acknowledges at most five seconds apart stage at most one ACKNOWLEDGE; exactly one when the first may send. */
  lemma AcknowledgeCooldown(t: Timestamps, now1: int, now2: int)
    requires now1 <= now2 <= now1 + AcknowledgeTimeMs
    ensures var s1 := AcknowledgeStep(t, now1);
      var s2 := AcknowledgeStep(s1.timers, now2);
      |s1.before + s2.before| <= 1
      && (s1.before != [] ==> s2.before == [] && |s1.before + s2.before| == 1)
  {
  }

  /** doErrorHandling: mark the active fault channel, then restart the hardware or acknowledge, by the fault's needsHardReset. */
  function ErrorHandling(t: Timestamps, ids: map<int, ErrorChannel>, errorCode: Option<Int32>, now: int, reachable: bool): (s: Step)
    ensures !s.clearErrors && s.after == []
    ensures s.raised <==> GetErrorChannel(ids, errorCode).UnknownCode?
  {
    match GetErrorChannel(ids, errorCode)
    case NoError => Quiet(t)
    case UnknownCode(_) => Quiet(t).(raised := true)
    case Fault(c) =>
      Prepend([Write(ErrorFlag(c), BoolValue(true))],
        if c.needsHardReset then HardRestart(t, now, reachable) else AcknowledgeStep(t, now))
  }

  /**
   * A fault that needs a hardware restart never acknowledges; any other fault
   * never touches the hard-reset output. Either way the fault channel is set.
   */
  lemma ErrorHandlingRoutes(t: Timestamps, ids: map<int, ErrorChannel>, errorCode: Option<Int32>, now: int, reachable: bool)
    requires GetErrorChannel(ids, errorCode).Fault?
    ensures var c := GetErrorChannel(ids, errorCode).channel;
      var s := ErrorHandling(t, ids, errorCode, now, reachable);
      && Plain(s)[0] == Write(ErrorFlag(c), BoolValue(true))
      && (c.needsHardReset ==> s.timers.lastAckAt == t.lastAckAt && Write(Command(Acknowledge), BoolValue(true)) !in Plain(s))
      && (!c.needsHardReset ==> s.timers.switchedOffAt == t.switchedOffAt && Write(HardResetOutput, BoolValue(true)) !in Plain(s))
  {
  }

  /**
   * The restart timer of handleOnGridState, while a restart is pending since
   * `ts`: strictly between 15 s and 45 s after it, switch the hardware back on
   * and clear every fault channel; strictly after 45 s, forget the restart.
   */
  function RestartTimer(t: Timestamps, now: int, reachable: bool): (s: Step)
    requires t.switchedOffAt.Some?
    ensures !s.raised && s.after == []
    ensures var ts := t.switchedOffAt.value;
      && (s.clearErrors <==> ts + SwitchOffTimeMs < now < ts + SwitchOffTimeMs + BootTimeMs && reachable)
      && s.before == (if s.clearErrors then [Write(HardResetOutput, BoolValue(false))] else [])
      && (s.timers.switchedOffAt.None? <==> now > ts + SwitchOffTimeMs + BootTimeMs)
      && s.timers == (if now > ts + SwitchOffTimeMs + BootTimeMs then t.(switchedOffAt := None) else t)
  {
    var ts := t.switchedOffAt.value;
    if ts + SwitchOffTimeMs < now < ts + SwitchOffTimeMs + BootTimeMs then
      if reachable then Step(t, [Write(HardResetOutput, BoolValue(false))], true, [], false) else Quiet(t)
    else if now > ts + SwitchOffTimeMs + BootTimeMs then Quiet(t.(switchedOffAt := None))
    else Quiet(t)
  }

  /** doRunHandling: with the DC link voltage off the 800 V setpoint by more than 20 V, restart; otherwise clear faults and send the run commands. */
  function RunHandling(t: Timestamps, linkVoltage: Option<real>, n: InverterCount, now: int, reachable: bool): (s: Step)
    ensures !s.raised
    ensures s.clearErrors <==> linkVoltage.Some? && DcLinkVoltageSetpoint - DcLinkVoltageTolerance <= linkVoltage.value <= DcLinkVoltageSetpoint + DcLinkVoltageTolerance
    ensures s.clearErrors ==> s.timers == t && s.before == [] && s.after == StageAll(RunCalls(n))
    ensures !s.clearErrors ==> s.after == [] && (linkVoltage.None? ==> s == Quiet(t))
    ensures !s.clearErrors && linkVoltage.Some? ==> s == HardRestart(t, now, reachable)
  {
    if linkVoltage.None? then Quiet(t)
    else
      var v := linkVoltage.value;
      var difference := if DcLinkVoltageSetpoint - v < 0.0 then v - DcLinkVoltageSetpoint else DcLinkVoltageSetpoint - v;
      if difference > DcLinkVoltageTolerance then HardRestart(t, now, reachable)
      else Step(t, [], true, StageAll(RunCalls(n)), false)
  }

  /** What handleOnGridState reads in one call. */
  datatype OnGridInputs = OnGridInputs(
    flags: Flags,                          // the thirteen CCU_STATE_* flags
    errorCode: Option<Int32>,              // CCU_ERROR_CODE
    linkVoltage: Option<real>,             // DCDC_STATUS_DC_LINK_POSITIVE_VOLTAGE
    syncBridge: Lookup<Option<bool>>,      // the sync-device-bridge output and its current value
    hardResetReachable: bool,              // whether the hard-reset output resolves
    inverters: InverterCount)

  /** The switch of handleOnGridState on the CCU state, when no restart is pending. */
  function CcuStateHandling(t: Timestamps, ids: map<int, ErrorChannel>, inp: OnGridInputs, now: int): (s: Step)
    ensures s.raised <==> CurrentState(inp.flags) == Error && GetErrorChannel(ids, inp.errorCode).UnknownCode?
    ensures s.timers.offGridDetected == t.offGridDetected
    ensures !(CurrentState(inp.flags) == Error || CurrentState(inp.flags) == Idle || CurrentState(inp.flags) == Run) ==> s == Quiet(t)
  {
    match CurrentState(inp.flags)
    case Error => ErrorHandling(t, ids, inp.errorCode, now, inp.hardResetReachable)
    case Idle => Append(Quiet(t), StageAll(StartSystemCalls(inp.inverters)))
    case Run => RunHandling(t, inp.linkVoltage, inp.inverters, now, inp.hardResetReachable)
    case _ => Quiet(t)
  }

  /** handleOnGridState. */
  function OnGridState(t: Timestamps, ids: map<int, ErrorChannel>, inp: OnGridInputs, now: int): (s: Step)
    ensures s.raised <==> (inp.syncBridge.LookupFailed? ||
      (t.switchedOffAt.None? && CurrentState(inp.flags) == Error && GetErrorChannel(ids, inp.errorCode).UnknownCode?))
    ensures inp.syncBridge.LookupFailed? ==> Plain(s) == [] && !s.clearErrors
  {
    var t0 := t.(offGridDetected := None);
    if inp.syncBridge.LookupFailed? then Quiet(t0).(raised := true)
    else
      var bridge := OptionSeq(SetOutput(SyncDeviceBridgeOutput, inp.syncBridge.value, false));
      if t0.switchedOffAt.Some? then Prepend(bridge, RestartTimer(t0, now, inp.hardResetReachable))
      else
        var s := Prepend(bridge, CcuStateHandling(t0, ids, inp, now));
        if s.raised then s else Append(s, ResetErrorCodes(inp.errorCode))
  }

  /** Whether the sync-device-bridge output write is the only thing `ws` stages besides the hard-reset output. */
  predicate OnlyTimerWork(ws: seq<Write>) {
    forall w :: w in ws ==> w.channel == SyncDeviceBridgeOutput || w.channel == HardResetOutput
  }

  /**
   * While a restart is pending, handleOnGridState only runs the timer: it
   * switches the output off, switches the hardware back on and clears the
   * fault channels exactly strictly inside (t+15 s, t+45 s), forgets the
   * restart exactly strictly after t+45 s, and touches nothing else.
   */
  lemma PendingRestartOnlyRunsTimer(t: Timestamps, ids: map<int, ErrorChannel>, inp: OnGridInputs, now: int)
    requires t.switchedOffAt.Some? && inp.syncBridge.Found?
    ensures var ts := t.switchedOffAt.value;
      var s := OnGridState(t, ids, inp, now);
      var inWindow := ts + 15_000 < now < ts + 45_000;
      && !s.raised && s.after == [] && OnlyTimerWork(s.before)
      && (Write(HardResetOutput, BoolValue(false)) in s.before <==> inWindow && inp.hardResetReachable)
      && (s.clearErrors <==> inWindow && inp.hardResetReachable)
      && (s.timers.switchedOffAt == None <==> now > ts + 45_000)
      && (s.timers.switchedOffAt != None ==> s.timers.switchedOffAt == t.switchedOffAt)
      && s.timers.lastAckAt == t.lastAckAt
  {
  }

  /** handleOnGridState always forgets a previous off-grid detection, even when it throws. */
  lemma OnGridForgetsOffGrid(t: Timestamps, ids: map<int, ErrorChannel>, inp: OnGridInputs, now: int)
    ensures OnGridState(t, ids, inp, now).timers.offGridDetected == None
  {
  }

  /**
   * One restart cycle: a hard restart at t0 is followed, strictly inside
   * (t0+15 s, t0+45 s), by switching the hardware back on, and strictly after
   * t0+45 s by forgetting the restart, after which a new restart may latch.
   */
  lemma RestartCycle(t: Timestamps, ids: map<int, ErrorChannel>, inp: OnGridInputs, t0: int, now1: int, now2: int)
    requires t.switchedOffAt.None? && inp.syncBridge.Found? && inp.hardResetReachable
    requires t0 + 15_000 < now1 < t0 + 45_000 && now2 > t0 + 45_000
    ensures var s0 := HardRestart(t, t0, true);
      var s1 := OnGridState(s0.timers, ids, inp, now1);
      var s2 := OnGridState(s1.timers, ids, inp, now2);
      && Write(HardResetOutput, BoolValue(false)) in s1.before && s1.clearErrors
      && s2.timers.switchedOffAt == None
      && HardRestart(s2.timers, now2, true).before == [Write(HardResetOutput, BoolValue(true))]
  {
    var s0 := HardRestart(t, t0, true);
    PendingRestartOnlyRunsTimer(s0.timers, ids, inp, now1);
    var s1 := OnGridState(s0.timers, ids, inp, now1);
    PendingRestartOnlyRunsTimer(s1.timers, ids, inp, now2);
  }

  /** What handleOffGridState reads in one call. */
  datatype OffGridInputs = OffGridInputs(
    syncBridge: Lookup<Option<bool>>,                     // the sync-device-bridge output and its current value
    meter: Lookup<(Option<Int32>, Option<Int32>)>,        // the grid meter's frequency (mHz) and voltage (mV)
    inverters: InverterCount)

  const MinFrequency: int := 49_700
  const MaxFrequency: int := 50_300
  const MinVoltage: int := 215_000
  const MaxVoltage: int := 245_000

  /** The U0 and F0 setpoints handleOffGridState stages from the grid meter's frequency and voltage (absent reads as -1). */
  function OffGridSetpoints(frequency: int, voltage: int): (uf: (real, real))
  {
    if frequency == 0 || frequency < MinFrequency || frequency > MaxFrequency
      || voltage == 0 || voltage < MinVoltage || voltage > MaxVoltage
    then (1.0, 1.0)
    else (((voltage + 5_000) as real) / 230_000.0, ((frequency + 20) as real) / 50_000.0)
  }

  /** handleOffGridState. */
  function OffGridState(t: Timestamps, inp: OffGridInputs, now: int): (s: Step)
    ensures !s.clearErrors && s.after == []
    ensures StageAll(OffGridCalls(inp.inverters)) <= s.before
    ensures s.raised <==> (inp.syncBridge.LookupFailed? ||
      (t.offGridDetected.Some? && t.offGridDetected.value + DoNothingInOffGridMs <= now && inp.meter.LookupFailed?))
    ensures s.timers.switchedOffAt == t.switchedOffAt && s.timers.lastAckAt == t.lastAckAt
  {
    var commands := StageAll(OffGridCalls(inp.inverters));
    if inp.syncBridge.LookupFailed? then Step(t, commands, false, [], true)
    else
      var ws := commands + OptionSeq(SetOutput(SyncDeviceBridgeOutput, inp.syncBridge.value, true));
      if t.offGridDetected.None? then Step(t.(offGridDetected := Some(now)), ws, false, [], false)
      else if t.offGridDetected.value + DoNothingInOffGridMs > now then Step(t, ws, false, [], false)
      else if inp.meter.LookupFailed? then Step(t, ws, false, [], true)
      else
        var uf := OffGridSetpoints(inp.meter.value.0.GetOr(-1), inp.meter.value.1.GetOr(-1));
        Step(t, ws + [Write(CommandU0, RealValue(uf.0)), Write(CommandF0, RealValue(uf.1))], false, [], false)
  }

  /** Whether a step stages a U0 or F0 setpoint. */
  predicate SetsReference(s: Step) {
    exists w :: w in Plain(s) && (w.channel == CommandU0 || w.channel == CommandF0)
  }

  /**
   * Off-grid, the first call only records the detection time and the next
   * five seconds stage no U0/F0 setpoint; from then on both are staged.
   */
  lemma OffGridWaitsFiveSeconds(t: Timestamps, inp: OffGridInputs, now: int)
    requires inp.syncBridge.Found?
    ensures var s := OffGridState(t, inp, now);
      && (t.offGridDetected.None? ==> s.timers.offGridDetected == Some(now) && !SetsReference(s))
      && (t.offGridDetected.Some? && now < t.offGridDetected.value + 5_000 ==> s.timers == t && !SetsReference(s))
      && (t.offGridDetected.Some? && now >= t.offGridDetected.value + 5_000 && inp.meter.Found? ==> SetsReference(s))
  {
    var s := OffGridState(t, inp, now);
    if t.offGridDetected.Some? && now >= t.offGridDetected.value + 5_000 && inp.meter.Found? {
      assert Plain(s)[|Plain(s)| - 1].channel == CommandF0;
    }
  }

  /**
   * A grid inside 49.7..50.3 Hz and 215..245 V (neither read as 0) is followed
   * 20 mHz and 5 V higher, normalised to 50 Hz and 230 V; any other reading,
   * an absent one included, holds both setpoints at 1.0.
   */
  lemma OffGridSetpointRange(frequency: Option<Int32>, voltage: Option<Int32>)
    ensures var uf := OffGridSetpoints(frequency.GetOr(-1), voltage.GetOr(-1));
      && (frequency.None? || voltage.None? ==> uf == (1.0, 1.0))
      && (uf != (1.0, 1.0) ==>
            && 220_000.0 / 230_000.0 <= uf.0 <= 250_000.0 / 230_000.0
            && 49_720.0 / 50_000.0 <= uf.1 <= 50_320.0 / 50_000.0)
  {
  }

  /** Every fault channel of the table staged false, and nothing else. */
  predicate ResetsAll(rs: seq<Write>, ids: map<int, ErrorChannel>) {
    && (forall e :: e in ids.Values ==> Write(ErrorFlag(e), BoolValue(false)) in rs)
    && (forall w :: w in rs ==> w.channel.ErrorFlag? && w.channel.e in ids.Values && w.value == BoolValue(false))
  }

  /** `ws` stages the writes of step `s` in order, with the fault-channel reset in its place. */
  predicate Staged(ws: seq<Write>, s: Step, ids: map<int, ErrorChannel>) {
    && |s.before| + |s.after| <= |ws|
    && ws[..|s.before|] == s.before
    && ws[|ws| - |s.after|..] == s.after
    && var rs := ws[|s.before|..|ws| - |s.after|];
       if s.clearErrors then ResetsAll(rs, ids) else rs == []
  }

  /** After resetErrorChannels every fault channel of the table reads false, whatever was staged for it before. */
  lemma ResetClearsEveryChannel(prefix: seq<Write>, rs: seq<Write>, ids: map<int, ErrorChannel>, e: ErrorChannel)
    requires ResetsAll(rs, ids) && e in ids.Values
    ensures LastValue(prefix + rs, ErrorFlag(e)) == Some(BoolValue(false))
  {
    LastValueIn(prefix, rs, ErrorFlag(e));
    LastValueWritten(rs, ErrorFlag(e));
  }

  /** A channel that the suffix writes gets its value from the suffix. */
  lemma {:induction false} LastValueIn(prefix: seq<Write>, rs: seq<Write>, c: Channel)
    requires exists w :: w in rs && w.channel == c
    ensures LastValue(prefix + rs, c) == LastValue(rs, c)
    decreases |rs|
  {
    var whole := prefix + rs;
    assert whole[..|whole| - 1] == prefix + rs[..|rs| - 1];
    if rs[|rs| - 1].channel != c {
      var w :| w in rs && w.channel == c;
      assert w in rs[..|rs| - 1];
      LastValueIn(prefix, rs[..|rs| - 1], c);
    }
  }

  lemma StagedPrepend(p: seq<Write>, ws: seq<Write>, s: Step, ids: map<int, ErrorChannel>)
    requires Staged(ws, s, ids)
    ensures Staged(p + ws, Prepend(p, s), ids)
  {
    var rs := ws[|s.before|..|ws| - |s.after|];
    StagedParts(ws, s, ids);
    assert p + ws == (p + s.before) + rs + s.after;
    StagedFrom(p + s.before, rs, s.after, Prepend(p, s), ids);
  }

  lemma StagedAppend(ws: seq<Write>, a: seq<Write>, s: Step, ids: map<int, ErrorChannel>)
    requires Staged(ws, s, ids)
    ensures Staged(ws + a, Append(s, a), ids)
  {
    var rs := ws[|s.before|..|ws| - |s.after|];
    StagedParts(ws, s, ids);
    assert ws + a == s.before + rs + (s.after + a);
    StagedFrom(s.before, rs, s.after + a, Append(s, a), ids);
  }

  /** A staged sequence is the step's writes before, the resets (if any), and the writes after. */
  lemma StagedParts(ws: seq<Write>, s: Step, ids: map<int, ErrorChannel>)
    requires Staged(ws, s, ids)
    ensures ws == s.before + ws[|s.before|..|ws| - |s.after|] + s.after
  {
    assert ws == ws[..|s.before|] + ws[|s.before|..|ws| - |s.after|] + ws[|ws| - |s.after|..];
  }

  /** Writes before, resets of every fault channel (or nothing) and writes after stage a step. */
  lemma StagedFrom(before: seq<Write>, rs: seq<Write>, after: seq<Write>, s: Step, ids: map<int, ErrorChannel>)
    requires s.before == before && s.after == after
    requires if s.clearErrors then ResetsAll(rs, ids) else rs == []
    ensures Staged(before + rs + after, s, ids)
  {
    var ws := before + rs + after;
    assert ws[..|before|] == before;
    assert ws[|ws| - |after|..] == after;
    assert ws[|before|..|ws| - |after|] == rs;
  }

  lemma StagedPlain(ws: seq<Write>, s: Step, ids: map<int, ErrorChannel>)
    requires !s.clearErrors && ws == s.before + s.after
    ensures Staged(ws, s, ids)
  {
    assert ws == s.before + [] + s.after;
    StagedFrom(s.before, [], s.after, s, ids);
  }

  /** The Gridcon driver's recovery state: the fault table and the three timestamps. */
  class GridconPcs {
    var errorChannelIds: map<int, ErrorChannel>
    var switchedOffAt: Option<int>
    var lastAckAt: Option<int>
    var offGridDetected: Option<int>

    function Stamps(): Timestamps
      reads this
    {
      Timestamps(switchedOffAt, lastAckAt, offGridDetected)
    }

    /** The constructor fills the fault table from the two fault enumerations; no timestamp is set. */
    constructor (codes: seq<ErrorChannel>, codes1: seq<ErrorChannel>)
      ensures errorChannelIds == TableOf(codes + codes1)
      ensures Stamps() == Timestamps(None, None, None)
    {
      var ids := FillErrorChannelMap(codes, codes1);
      errorChannelIds := ids;
      switchedOffAt := None;
      lastAckAt := None;
      offGridDetected := None;
    }

    /** resetErrorChannels: stage false on every fault channel of the table. */
    method ResetErrorChannels() returns (rs: seq<Write>)
      ensures ResetsAll(rs, errorChannelIds)
    {
      rs := [];
      var rest := errorChannelIds.Values;
      while rest != {}
        invariant rest <= errorChannelIds.Values
        invariant forall e :: e in errorChannelIds.Values && e !in rest ==> Write(ErrorFlag(e), BoolValue(false)) in rs
        invariant forall w :: w in rs ==> w.channel.ErrorFlag? && w.channel.e in errorChannelIds.Values && w.value == BoolValue(false)
        decreases |rest|
      {
        var e :| e in rest;
        rs := rs + [Write(ErrorFlag(e), BoolValue(false))];
        rest := rest - {e};
      }
    }

    method DoHardRestart(now: int, reachable: bool) returns (ws: seq<Write>)
      modifies this
      ensures var s := HardRestart(old(Stamps()), now, reachable); Stamps() == s.timers && ws == s.before
      ensures errorChannelIds == old(errorChannelIds)
    {
      ws := [];
      if switchedOffAt == None {
        if reachable {
          ws := [Write(HardResetOutput, BoolValue(true))];
          switchedOffAt := Some(now);
        }
      }
    }

    method AcknowledgeErrors(now: int) returns (ws: seq<Write>)
      modifies this
      ensures var s := AcknowledgeStep(old(Stamps()), now); Stamps() == s.timers && ws == s.before
      ensures errorChannelIds == old(errorChannelIds)
    {
      ws := [];
      if lastAckAt == None || now > lastAckAt.value + AcknowledgeTimeMs {
        ws := [StageBoolean(BoolCall(Acknowledge, true))];
        lastAckAt := Some(now);
      }
    }

    method DoErrorHandling(errorCode: Option<Int32>, now: int, reachable: bool) returns (ws: seq<Write>, raised: bool)
      modifies this
      ensures var s := ErrorHandling(old(Stamps()), old(errorChannelIds), errorCode, now, reachable);
        Stamps() == s.timers && ws == Plain(s) && raised == s.raised
      ensures errorChannelIds == old(errorChannelIds)
    {
      ws := [];
      raised := false;
      var lookup := GetErrorChannel(errorChannelIds, errorCode);
      match lookup {
        case NoError =>
        case UnknownCode(_) =>
          raised := true;
        case Fault(c) =>
          ws := [Write(ErrorFlag(c), BoolValue(true))];
          var more;
          if c.needsHardReset {
            more := DoHardRestart(now, reachable);
          } else {
            more := AcknowledgeErrors(now);
          }
          ws := ws + more;
      }
    }

    method DoRunHandling(linkVoltage: Option<real>, n: InverterCount, now: int, reachable: bool) returns (ws: seq<Write>)
      modifies this
      ensures var s := RunHandling(old(Stamps()), linkVoltage, n, now, reachable);
        Stamps() == s.timers && Staged(ws, s, old(errorChannelIds))
      ensures errorChannelIds == old(errorChannelIds)
    {
      ghost var s := RunHandling(Stamps(), linkVoltage, n, now, reachable);
      if linkVoltage == None {
        ws := [];
        StagedPlain(ws, s, errorChannelIds);
        return;
      }
      var v := linkVoltage.value;
      var difference := if DcLinkVoltageSetpoint - v < 0.0 then v - DcLinkVoltageSetpoint else DcLinkVoltageSetpoint - v;
      if difference > DcLinkVoltageTolerance {
        ws := DoHardRestart(now, reachable);
        StagedPlain(ws, s, errorChannelIds);
        return;
      }
      var rs := ResetErrorChannels();
      ws := rs + StageAll(RunCalls(n));
      StagedFrom([], rs, StageAll(RunCalls(n)), s, errorChannelIds);
      assert [] + rs + StageAll(RunCalls(n)) == ws;
    }

    method RunRestartTimer(now: int, reachable: bool) returns (ws: seq<Write>)
      requires switchedOffAt.Some?
      modifies this
      ensures var s := RestartTimer(old(Stamps()), now, reachable);
        Stamps() == s.timers && Staged(ws, s, old(errorChannelIds))
      ensures errorChannelIds == old(errorChannelIds)
    {
      ghost var timer := RestartTimer(Stamps(), now, reachable);
      var ts := switchedOffAt.value;
      ws := [];
      if ts + SwitchOffTimeMs < now < ts + SwitchOffTimeMs + BootTimeMs {
        if reachable {
          var rs := ResetErrorChannels();
          ws := [Write(HardResetOutput, BoolValue(false))] + rs;
          StagedFrom([Write(HardResetOutput, BoolValue(false))], rs, [], timer, errorChannelIds);
          assert [Write(HardResetOutput, BoolValue(false))] + rs + [] == ws;
        } else {
          StagedPlain(ws, timer, errorChannelIds);
        }
      } else {
        if now > ts + SwitchOffTimeMs + BootTimeMs {
          switchedOffAt := None;
        }
        StagedPlain(ws, timer, errorChannelIds);
      }
    }

    method HandleCcuState(inp: OnGridInputs, now: int) returns (ws: seq<Write>, raised: bool)
      modifies this
      ensures var s := CcuStateHandling(old(Stamps()), old(errorChannelIds), inp, now);
        Stamps() == s.timers && Staged(ws, s, old(errorChannelIds)) && raised == s.raised
      ensures errorChannelIds == old(errorChannelIds)
    {
      ghost var handled := CcuStateHandling(Stamps(), errorChannelIds, inp, now);
      ws := [];
      raised := false;
      match CurrentState(inp.flags) {
        case Error =>
          ws, raised := DoErrorHandling(inp.errorCode, now, inp.hardResetReachable);
          StagedPlain(ws, handled, errorChannelIds);
        case Idle =>
          ws := StageAll(StartSystemCalls(inp.inverters));
          StagedPlain(ws, handled, errorChannelIds);
        case Run =>
          ws := DoRunHandling(inp.linkVoltage, inp.inverters, now, inp.hardResetReachable);
        case _ =>
          StagedPlain(ws, handled, errorChannelIds);
      }
    }

    method HandleOnGridState(inp: OnGridInputs, now: int) returns (ws: seq<Write>, raised: bool)
      modifies this
      ensures var s := OnGridState(old(Stamps()), old(errorChannelIds), inp, now);
        Stamps() == s.timers && Staged(ws, s, old(errorChannelIds)) && raised == s.raised
      ensures errorChannelIds == old(errorChannelIds)
    {
      ghost var t := Stamps();
      offGridDetected := None;
      ws := [];
      raised := false;
      if inp.syncBridge.LookupFailed? {
        raised := true;
        StagedPlain(ws, OnGridState(t, errorChannelIds, inp, now), errorChannelIds);
        return;
      }
      var bridge := OptionSeq(SetOutput(SyncDeviceBridgeOutput, inp.syncBridge.value, false));
      ghost var handled: Step;
      if switchedOffAt.Some? {
        handled := RestartTimer(Stamps(), now, inp.hardResetReachable);
        ws := RunRestartTimer(now, inp.hardResetReachable);
        StagedPrepend(bridge, ws, handled, errorChannelIds);
        ws := bridge + ws;
        return;
      }
      handled := CcuStateHandling(Stamps(), errorChannelIds, inp, now);
      ws, raised := HandleCcuState(inp, now);
      StagedPrepend(bridge, ws, handled, errorChannelIds);
      ws := bridge + ws;
      if !raised {
        StagedAppend(ws, ResetErrorCodes(inp.errorCode), Prepend(bridge, handled), errorChannelIds);
        ws := ws + ResetErrorCodes(inp.errorCode);
      }
    }

    method HandleOffGridState(inp: OffGridInputs, now: int) returns (ws: seq<Write>, raised: bool)
      modifies this
      ensures var s := OffGridState(old(Stamps()), inp, now);
        Stamps() == s.timers && ws == Plain(s) && raised == s.raised
      ensures errorChannelIds == old(errorChannelIds)
    {
      ws := StageAll(OffGridCalls(inp.inverters));
      raised := false;
      if inp.syncBridge.LookupFailed? {
        raised := true;
        return;
      }
      ws := ws + OptionSeq(SetOutput(SyncDeviceBridgeOutput, inp.syncBridge.value, true));
      if offGridDetected == None {
        offGridDetected := Some(now);
        return;
      }
      if offGridDetected.value + DoNothingInOffGridMs > now {
        return;
      }
      if inp.meter.LookupFailed? {
        raised := true;
        return;
      }
      var frequency := inp.meter.value.0.GetOr(-1);
      var voltage := inp.meter.value.1.GetOr(-1);
      var uf := OffGridSetpoints(frequency, voltage);
      ws := ws + [Write(CommandU0, RealValue(uf.0)), Write(CommandF0, RealValue(uf.1))];
    }
  }
}
