/**
 * Grid-mode evaluation from the two NA-protection relay inputs
 * (evaluateGridMode) and the choice of the driver's state machine
 * (getStateMachine).
 */
module OperatingModes {
  import opened Wrappers
  import opened GridconTypes
  import opened Faults

  /**
   * What evaluateGridMode leaves behind: the GRID_MODE value it stages in its
   * `finally` block, and the mode it returns (None when a relay lookup threw,
   * in which case the exception propagates after the staging).
   */
  datatype GridModeResult = GridModeResult(staged: Write, outcome: Option<GridMode>)

  /** The mode the relay readings stand for, when both relays could be read. */
  function RelayMode(relay1: Option<bool>, relay2: Option<bool>): (m: GridMode)
    ensures m == UndefinedGridMode <==> relay1.None? || relay2.None?
    ensures m == OnGrid <==> relay1 == Some(true) && relay2 == Some(true)
    ensures m == OffGrid <==> relay1.Some? && relay2.Some? && !(relay1.value && relay2.value)
  {
    if relay1.None? || relay2.None? then UndefinedGridMode
    else if relay1.value && relay2.value then OnGrid
    else OffGrid
  }

  /** evaluateGridMode: resolve relay 1, then relay 2, decide the mode, and stage GRID_MODE on every path. */
  function EvaluateGridMode(relay1: Lookup<Option<bool>>, relay2: Lookup<Option<bool>>): (r: GridModeResult)
    ensures r.staged.channel == GridModeChannel && r.staged.value.ModeValue?
    ensures r.outcome.Some? <==> relay1.Found? && relay2.Found?
    ensures r.outcome.Some? ==> r.staged.value == ModeValue(r.outcome.value)
    ensures r.staged.value == ModeValue(OnGrid) <==> relay1 == Found(Some(true)) && relay2 == Found(Some(true))
    ensures r.staged.value == ModeValue(UndefinedGridMode) <==>
      !(Readable(relay1) && Readable(relay2))
  {
    var mode := if relay1.Found? && relay2.Found? then RelayMode(relay1.value, relay2.value) else UndefinedGridMode;
    GridModeResult(Write(GridModeChannel, ModeValue(mode)), if relay1.Found? && relay2.Found? then Some(mode) else None)
  }

  /** A relay input that could be resolved and carries a value. */
  predicate Readable(relay: Lookup<Option<bool>>) {
    relay.Found? && relay.value.Some?
  }

  /**
   * getStateMachine: ONGRID_NORMAL_OPERATION when the grid is on and no fault
   * channel is active, otherwise UNDEFINED. An unknown fault code makes the
   * fault lookup throw (None).
   */
  function GetStateMachine(gridMode: GridMode, fault: ErrorLookup): (r: Option<StateMachine>)
    ensures r == None <==> fault.UnknownCode?
    ensures r == Some(OngridNormalOperation) <==> gridMode == OnGrid && fault.NoError?
    ensures r != Some(IdleState)
  {
    if fault.UnknownCode? then None
    else if gridMode == OnGrid && fault.NoError? then Some(OngridNormalOperation)
    else Some(UndefinedState)
  }

  /**
   * In one cycle the state machine reads the grid mode just staged: it reaches
   * normal operation exactly when both relays read true and no fault is active.
   */
  lemma NormalOperationIffRelaysClosed(relay1: Lookup<Option<bool>>, relay2: Lookup<Option<bool>>, fault: ErrorLookup)
    requires EvaluateGridMode(relay1, relay2).outcome.Some?
    ensures GetStateMachine(EvaluateGridMode(relay1, relay2).outcome.value, fault) == Some(OngridNormalOperation)
      <==> relay1 == Found(Some(true)) && relay2 == Found(Some(true)) && fault == NoError
  {
  }
}
