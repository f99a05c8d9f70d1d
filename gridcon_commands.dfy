/**
 * The command writes of the Gridcon driver: the boolean command helper
 * (setNextWriteValueToBooleanWriteChannel) and the command sequences of
 * startSystem, doRunHandling and handleOffGridState built on it, the digital
 * output helper (setOutput) and the error-code echo (resetErrorCodes).
 */
module Commands {
  import opened Wrappers
  import opened JavaInt
  import opened GridconTypes

  /** One call of the boolean command helper: the command bit and the value the caller asks for. */
  datatype BoolCall = BoolCall(bit: CommandBit, requested: bool)

  /** setNextWriteValueToBooleanWriteChannel: stages `true` on the command bit, whatever value was requested. */
  function StageBoolean(call: BoolCall): (w: Write)
    ensures w.channel == Command(call.bit) && w.value == BoolValue(true)
  {
    Write(Command(call.bit), BoolValue(true))
  }

  /** A sequence of helper calls, staged in order. */
  function StageAll(calls: seq<BoolCall>): (ws: seq<Write>)
    ensures |ws| == |calls|
    ensures forall i :: 0 <= i < |calls| ==> ws[i] == StageBoolean(calls[i])
  {
    seq(|calls|, i requires 0 <= i < |calls| => StageBoolean(calls[i]))
  }

  /** Whatever the requests, every command bit a helper sequence touches ends up staged true. */
  lemma StagedCommandsAreTrue(calls: seq<BoolCall>, bit: CommandBit)
    requires exists i :: 0 <= i < |calls| && calls[i].bit == bit
    ensures LastValue(StageAll(calls), Command(bit)) == Some(BoolValue(true))
  {
    var ws := StageAll(calls);
    var i :| 0 <= i < |calls| && calls[i].bit == bit;
    assert ws[i].channel == Command(bit);
    LastValueWritten(ws, Command(bit));
    var v := LastValue(ws, Command(bit));
    assert Write(Command(bit), v.value) in ws;
  }

  /** The requested values of the four DISABLE_IPU bits that doRunHandling and handleOffGridState compute from the inverter count. */
  function RequestedDisableIpu(n: InverterCount, k: nat): (disable: bool)
    requires 1 <= k <= 4
    ensures disable <==> k > n + 1
  {
    if k == 1 then false
    else if k == 2 then false
    else if k == 3 then n < 2
    else n < 3
  }

  function DisableIpuCalls(n: InverterCount): (calls: seq<BoolCall>)
    ensures |calls| == 4
    ensures forall k :: 1 <= k <= 4 ==> calls[k - 1] == BoolCall(DisableIpu(k), RequestedDisableIpu(n, k))
  {
    seq(4, i requires 0 <= i < 4 => BoolCall(DisableIpu(i + 1), RequestedDisableIpu(n, i + 1)))
  }

  /** startSystem: PLAY, SYNC_APPROVAL, BLACKSTART_APPROVAL(false), MODE_SELECTION, SHORT_CIRCUIT_HANDLING, the four DISABLE_IPU bits, then re-enabling IPU n+1. */
  function StartSystemCalls(n: InverterCount): (calls: seq<BoolCall>)
    ensures |calls| == 10
  {
    [BoolCall(Play, true), BoolCall(SyncApproval, true), BoolCall(BlackstartApproval, false),
     BoolCall(ModeSelection, true), BoolCall(ActivateShortCircuitHandling, true),
     BoolCall(DisableIpu(1), false), BoolCall(DisableIpu(2), true), BoolCall(DisableIpu(3), true),
     BoolCall(DisableIpu(4), true), BoolCall(DisableIpu(n + 1), false)]
  }

  /** The command part of doRunHandling: PLAY, then the four DISABLE_IPU bits. */
  function RunCalls(n: InverterCount): (calls: seq<BoolCall>)
    ensures |calls| == 5
  {
    [BoolCall(Play, true)] + DisableIpuCalls(n)
  }

  /** The command part of handleOffGridState: the DISABLE_IPU bits, BLACKSTART_APPROVAL on, SYNC_APPROVAL, MODE_SELECTION and SHORT_CIRCUIT_HANDLING off. */
  function OffGridCalls(n: InverterCount): (calls: seq<BoolCall>)
    ensures |calls| == 8
  {
    DisableIpuCalls(n) + [BoolCall(BlackstartApproval, true), BoolCall(SyncApproval, false),
      BoolCall(ModeSelection, false), BoolCall(ActivateShortCircuitHandling, false)]
  }

  /**
   * startSystem asks for IPU n+1 to be enabled and for blackstart approval to
   * be withdrawn, but every DISABLE_IPU bit and BLACKSTART_APPROVAL end up
   * staged true.
   */
  lemma StartSystemDisablesEveryIpu(n: InverterCount, k: nat)
    requires 1 <= k <= 4
    ensures BoolCall(DisableIpu(n + 1), false) in StartSystemCalls(n)
    ensures BoolCall(BlackstartApproval, false) in StartSystemCalls(n)
    ensures LastValue(StageAll(StartSystemCalls(n)), Command(DisableIpu(k))) == Some(BoolValue(true))
    ensures LastValue(StageAll(StartSystemCalls(n)), Command(BlackstartApproval)) == Some(BoolValue(true))
  {
    var calls := StartSystemCalls(n);
    assert calls[4 + k].bit == DisableIpu(k);
    StagedCommandsAreTrue(calls, DisableIpu(k));
    assert calls[2].bit == BlackstartApproval;
    StagedCommandsAreTrue(calls, BlackstartApproval);
  }

  /**
   * In RUN and in off-grid operation, IPU 1 and 2 are requested enabled, yet
   * all four DISABLE_IPU bits end up staged true; off-grid also stages
   * SYNC_APPROVAL, MODE_SELECTION and SHORT_CIRCUIT_HANDLING true against the request.
   */
  lemma RunAndOffGridDisableEveryIpu(n: InverterCount, k: nat)
    requires 1 <= k <= 4
    ensures !RequestedDisableIpu(n, 1) && !RequestedDisableIpu(n, 2)
    ensures LastValue(StageAll(RunCalls(n)), Command(DisableIpu(k))) == Some(BoolValue(true))
    ensures LastValue(StageAll(OffGridCalls(n)), Command(DisableIpu(k))) == Some(BoolValue(true))
    ensures BoolCall(SyncApproval, false) in OffGridCalls(n)
    ensures LastValue(StageAll(OffGridCalls(n)), Command(SyncApproval)) == Some(BoolValue(true))
  {
    assert RunCalls(n)[k].bit == DisableIpu(k);
    StagedCommandsAreTrue(RunCalls(n), DisableIpu(k));
    assert OffGridCalls(n)[k - 1].bit == DisableIpu(k);
    StagedCommandsAreTrue(OffGridCalls(n), DisableIpu(k));
    assert OffGridCalls(n)[5] == BoolCall(SyncApproval, false);
    StagedCommandsAreTrue(OffGridCalls(n), SyncApproval);
  }

  /** setOutput: stage `value` on the output only when its current value is absent or differs. */
  function SetOutput(output: Channel, current: Option<bool>, value: bool): (r: Option<Write>)
    ensures r.Some? <==> current != Some(value)
    ensures r.Some? ==> r.value == Write(output, BoolValue(value))
  {
    if current.None? || current.value != value then Some(Write(output, BoolValue(value))) else None
  }

  /** Once the staged value is applied, the output reads `value` and repeating the call stages nothing. */
  lemma SetOutputSettles(output: Channel, current: Option<bool>, value: bool)
    ensures var r := SetOutput(output, current, value);
      var after := if r.Some? then Some(r.value.value.b) else current;
      after == Some(value) && SetOutput(output, after, value) == None
  {
  }

  /** resetErrorCodes: a present, non-zero CCU error code is echoed to COMMAND_ERROR_CODE_FEEDBACK. */
  function ResetErrorCodes(errorCode: Option<Int32>): (ws: seq<Write>)
    ensures ws == [] <==> errorCode == None || errorCode == Some(0)
    ensures ws != [] ==> ws == [Write(CommandErrorCodeFeedback, IntValue(errorCode.value))]
  {
    if errorCode.Some? && errorCode.value != 0 then [Write(CommandErrorCodeFeedback, IntValue(errorCode.value))] else []
  }
}
