# OpenEMS Gridcon, DeepSea genset and ESP stage models in Dafny

This project models the decision logic of four OpenEMS Edge components.

- **MR Gridcon power-conversion system** (`GridconPCS`). It covers:
  - the CCU state decoded from its priority-ordered status flags;
  - the grid mode read from the two NA-protection relays;
  - the driver's state machine and the fault table built from the two fault enumerations;
  - fault handling: hard restart, acknowledge with a five-second cool-down, and the 15 s / 45 s restart timer;
  - the on-grid and off-grid handlers;
  - battery-string handling: allowed power, state-of-charge sums, the string presence mask, per-string weights and limits, and the power references;
  - the date/time words and the Modbus register tables.
- **DeepSea 8660 load-offset controller** (`controllerImpl`). This is the genset state machine. Each cycle it:
  - computes the load power;
  - decides inside the load-shedding window whether to run the genset;
  - stops it with the STOP key when the window closes;
  - holds the AUTO key for eleven cycles while the genset spins down.
- **DeepSea 8660 sync panel and DeepSea genset drivers**. Each sums its three phase powers into a total and resets a total outside ±2000 to 0. The model also covers their register tables.
- **ESP load-shedding client**: the extraction of the stage number from a free-text note.

The Gridcon driver does not write to the device itself. It stages writes to channels, and the last staged value of a channel is the one sent. The model represents one cycle's staging as a `seq<Write>`. `GridconTypes.LastValue` gives a channel's last staged value. Every property about what a cycle sends is stated through `LastValue`.

Objects whose fields the source updates in place are classes: `Recovery.GridconPcs`, which holds the fault table and three timestamps, and `GensetController.LoadOffsetController`. Each of their methods is proved against a pure step function. The lemmas about those functions state the properties that span several calls.

Java `int` arithmetic wraps at 32 bits. `JavaInt` makes this explicit:
- `Wrap` gives the wrap-around;
- `TruncDiv` gives division rounded toward zero;
- `ShiftRight` gives the arithmetic shift.

Time is a parameter `now` in milliseconds. The hour of day and the date are parameters too.

The model captures these behaviours of the code as written:

- The helper that stages a boolean command always stages `true`, whatever value it is passed. So the `false` that the start-up, run and off-grid sequences ask for on a DISABLE_IPU bit, SYNC_APPROVAL or BLACKSTART_APPROVAL never reaches the device (`Commands.StagedCommandsAreTrue`).
- DISABLE_IPU_1 is bit 15 of the command word, but bit 16 of its read-back mirror. Bit 16 lies outside a 16-bit register (`GridconRegisters.CommandMirrorBitMoved`).
- `applyPower` computes its factors with Java integer division. Any active power of smaller magnitude than the maximum apparent power gives the factor 0 (`StringWeighting.PowerFactorTruncates`).
- The factors stay within [-1, 1], as the comment in `applyPower` asks, only while the power is below twice the maximum apparent power in magnitude (`StringWeighting.PowerFactorRange`). A maximum apparent power of 0 throws after the string weighting has already been staged, and those writes stay staged (`StringWeighting.ApplyPowerNormal`).
- The string presence mask accepts strings whose weights are all zero (`StringWeighting.ZeroWeightsAccepted`).
- An error code with no entry in the fault table makes `getErrorChannel` ask for the channel of a null id, which throws. The model represents this as a raised outcome (`raised`, or `None`).
- `prepareGeneralCommands` is declared but never called. `writeCCUControlParameters` and `writeDateAndTime` are called only from it (GridconPCS.java:360-362), so they are dead code too. The model still covers all three, as functions.
- `handleOnGridState` (line 408) and `handleOffGridState` (line 1123) are never called. `handleStateMachine` (lines 260-273) only calls `handleOnGridNormalOperation`. So in this revision `handleEvent` can reach none of `startSystem`, `doRunHandling`, `doErrorHandling`, `doHardRestart`, `acknowledgeErrors`, the restart timer or the off-grid handler. The model still gives each one as its own operation on `GridconPcs`, as the source declares it.

## Model

| member | source | states |
|---|---|---|
| GridconTypes.LastValueWritten | io.openems.edge.ess.mr.gridcon/src/io/openems/edge/ess/mr/gridcon/GridconPCS.java:1109-1116 | a channel has a last staged value exactly when some write targets it, and that value was actually written to it |
| JavaInt.WrapQuotient | io.openems.edge.ess.mr.gridcon/src/io/openems/edge/ess/mr/gridcon/GridconPCS.java:226-231 | 32-bit wrap-around is the identity on int range and otherwise subtracts a whole number of 2^32 |
| JavaInt.TruncDiv | io.openems.edge.ess.mr.gridcon/src/io/openems/edge/ess/mr/gridcon/GridconPCS.java:978-979 | Java division: the magnitude is the quotient of the magnitudes, and the sign is negative only when the operands' signs differ |
| JavaInt.ShiftRight | io.openems.edge.ess.mr.gridcon/src/io/openems/edge/ess/mr/gridcon/GridconPCS.java:831 | `>>` by n is floor division by 2^n, negative codes included |
| CcuStatus.FirstSetIsLeast | io.openems.edge.ess.mr.gridcon/src/io/openems/edge/ess/mr/gridcon/GridconPCS.java:879-930 | the flag search returns the least set flag from its start position, and none exactly when no flag from there on is set |
| CcuStatus.CurrentState | io.openems.edge.ess.mr.gridcon/src/io/openems/edge/ess/mr/gridcon/GridconPCS.java:879-930 | the decoded state is one of the thirteen flag states or UNDEFINED, and it is IDLE exactly when the highest-priority flag (bit 0) is set |
| CcuStatus.CurrentStateIsFirstSet | io.openems.edge.ess.mr.gridcon/src/io/openems/edge/ess/mr/gridcon/GridconPCS.java:879-930 | the if-chain of getCurrentState yields the state of the first set flag in priority order, or UNDEFINED |
| CcuStatus.StateOfFirstSetFlag | io.openems.edge.ess.mr.gridcon/src/io/openems/edge/ess/mr/gridcon/GridconPCS.java:879-930 | the state is the k-th priority state if and only if flag k is set and no higher-priority flag is |
| CcuStatus.UndefinedIffNoFlag | io.openems.edge.ess.mr.gridcon/src/io/openems/edge/ess/mr/gridcon/GridconPCS.java:879-930 | UNDEFINED if and only if none of the thirteen flags is set |
| CcuStatus.LowerPriorityFlagsIgnored | io.openems.edge.ess.mr.gridcon/src/io/openems/edge/ess/mr/gridcon/GridconPCS.java:879-930 | changing flags of lower priority than the first set one never changes the state |
| CcuStatus.SingleBitWord | io.openems.edge.ess.mr.gridcon/src/io/openems/edge/ess/mr/gridcon/GridconPCS.java:1253-1268 | a CCU state word with only bit k set decodes to the state mapped at bit k |
| OperatingModes.RelayMode | io.openems.edge.ess.mr.gridcon/src/io/openems/edge/ess/mr/gridcon/GridconPCS.java:204-212 | with both relay values present the mode is ON_GRID exactly when both are true and OFF_GRID otherwise; a missing value gives UNDEFINED, and only then |
| OperatingModes.EvaluateGridMode | io.openems.edge.ess.mr.gridcon/src/io/openems/edge/ess/mr/gridcon/GridconPCS.java:193-218 | GRID_MODE is ON_GRID if and only if both relays read true, and UNDEFINED if and only if either relay is unreadable or unset; a failed lookup throws after staging |
| OperatingModes.GetStateMachine | io.openems.edge.ess.mr.gridcon/src/io/openems/edge/ess/mr/gridcon/GridconPCS.java:333-346 | normal operation if and only if on-grid with no active fault; an unknown fault code throws; IDLE is never produced |
| OperatingModes.NormalOperationIffRelaysClosed | io.openems.edge.ess.mr.gridcon/src/io/openems/edge/ess/mr/gridcon/GridconPCS.java:333-346 | composed with the grid mode: normal operation if and only if both relays are closed and no fault is active |
| Faults.TableOf | io.openems.edge.ess.mr.gridcon/src/io/openems/edge/ess/mr/gridcon/GridconPCS.java:149-158 | each put maps its code to its channel, overwriting what an earlier put stored under that code; no puts leave the table empty |
| Faults.TableOfContents | io.openems.edge.ess.mr.gridcon/src/io/openems/edge/ess/mr/gridcon/GridconPCS.java:149-158 | the fault table holds exactly the codes of the listed channels, each mapped to a listed channel carrying that code |
| Faults.TableOfAppend | io.openems.edge.ess.mr.gridcon/src/io/openems/edge/ess/mr/gridcon/GridconPCS.java:149-158 | filling from two lists in turn equals the first table overridden by the second |
| Faults.SecondFamilyWins | io.openems.edge.ess.mr.gridcon/src/io/openems/edge/ess/mr/gridcon/GridconPCS.java:149-158 | a code present in both enumerations maps to the ErrorCodeChannelId1 channel, and any other code to its own family's channel |
| Faults.FillErrorChannelMap | io.openems.edge.ess.mr.gridcon/src/io/openems/edge/ess/mr/gridcon/GridconPCS.java:149-158 | the two put-loops build exactly the table of both enumerations in order |
| Faults.GetErrorChannel | io.openems.edge.ess.mr.gridcon/src/io/openems/edge/ess/mr/gridcon/GridconPCS.java:823-836 | no fault if and only if the code is absent or 0; otherwise the channel whose table key is the code shifted right by 8, or an unknown key |
| Faults.LookupInFilledTable | io.openems.edge.ess.mr.gridcon/src/io/openems/edge/ess/mr/gridcon/GridconPCS.java:823-836 | a found fault channel is one of the enumerations' channels, and its code times 256 brackets the raw code; an unknown key is no channel's code |
| Commands.StageBoolean | io.openems.edge.ess.mr.gridcon/src/io/openems/edge/ess/mr/gridcon/GridconPCS.java:558-561 | the helper stages `true` on the command bit it is given, whatever value the caller asked for |
| Commands.StageAll | io.openems.edge.ess.mr.gridcon/src/io/openems/edge/ess/mr/gridcon/GridconPCS.java:558-561 | a sequence of boolean command calls stages one write per call, in order |
| Commands.StagedCommandsAreTrue | io.openems.edge.ess.mr.gridcon/src/io/openems/edge/ess/mr/gridcon/GridconPCS.java:558-561 | whatever values were requested, every command bit that was staged ends up true |
| Commands.RequestedDisableIpu | io.openems.edge.ess.mr.gridcon/src/io/openems/edge/ess/mr/gridcon/GridconPCS.java:523-540 | IPU k is requested disabled exactly when k exceeds the inverter count plus one |
| Commands.StartSystemDisablesEveryIpu | io.openems.edge.ess.mr.gridcon/src/io/openems/edge/ess/mr/gridcon/GridconPCS.java:614-666 | startSystem asks to enable IPU n+1 and to clear BLACKSTART_APPROVAL, yet stages every DISABLE_IPU bit and BLACKSTART_APPROVAL as true |
| Commands.RunAndOffGridDisableEveryIpu | io.openems.edge.ess.mr.gridcon/src/io/openems/edge/ess/mr/gridcon/GridconPCS.java:523-555 | the run and off-grid sequences request IPU 1 and 2 enabled and SYNC_APPROVAL false, but stage all of them as true |
| Commands.SetOutput | io.openems.edge.ess.mr.gridcon/src/io/openems/edge/ess/mr/gridcon/GridconPCS.java:1869-1879 | an output is written if and only if its current value is unknown or differs, and then with the requested value |
| Commands.SetOutputSettles | io.openems.edge.ess.mr.gridcon/src/io/openems/edge/ess/mr/gridcon/GridconPCS.java:1869-1879 | after one setOutput the output holds the value, and a second call with it writes nothing |
| Commands.ResetErrorCodes | io.openems.edge.ess.mr.gridcon/src/io/openems/edge/ess/mr/gridcon/GridconPCS.java:496-503 | the error-code feedback is staged if and only if a non-zero code is present, and it echoes that code |
| GeneralCommands.FullPowerLimits | io.openems.edge.ess.mr.gridcon/src/io/openems/edge/ess/mr/gridcon/GridconPCS.java:93-94 | all three IPU limits used by prepareGeneralCommands are the full power constant |
| GeneralCommands.WriteCcuControlParameters | io.openems.edge.ess.mr.gridcon/src/io/openems/edge/ess/mr/gridcon/GridconPCS.java:563-583 | sixteen control-parameter writes, the last of them the P control mode |
| GeneralCommands.CcuControlChannels | io.openems.edge.ess.mr.gridcon/src/io/openems/edge/ess/mr/gridcon/GridconPCS.java:563-583 | writeCCUControlParameters touches only control-parameter channels |
| GeneralCommands.CcuControlParametersEffect | io.openems.edge.ess.mr.gridcon/src/io/openems/edge/ess/mr/gridcon/GridconPCS.java:563-583 | after it, Q limit reads 1, the P control mode reads the mode, and every other control parameter reads 0, whatever was staged before |
| GeneralCommands.ReferencesEffect | io.openems.edge.ess.mr.gridcon/src/io/openems/edge/ess/mr/gridcon/GridconPCS.java:350-358 | U0 ends at 1.0 and F0 ends at 1.035, never at 0 |
| GeneralCommands.GeneralHeadEffect | io.openems.edge.ess.mr.gridcon/src/io/openems/edge/ess/mr/gridcon/GridconPCS.java:348-362 | after the references, date/time and control parameters, U0 and F0 keep 1.0 and 1.035 and the P control mode is ACTIVE_POWER_CONTROL |
| GeneralCommands.HeadKeepsReference | io.openems.edge.ess.mr.gridcon/src/io/openems/edge/ess/mr/gridcon/GridconPCS.java:348-362 | the date/time and control-parameter writes never override a reference channel |
| GeneralCommands.PrepareGeneralCommands | io.openems.edge.ess.mr.gridcon/src/io/openems/edge/ess/mr/gridcon/GridconPCS.java:348-365 | it throws exactly when the string presence mask cannot be computed |
| GeneralCommands.GeneralCommandsEffect | io.openems.edge.ess.mr.gridcon/src/io/openems/edge/ess/mr/gridcon/GridconPCS.java:348-365 | the reference values survive, and when it does not throw every configured IPU gets the full limits, weight A is 1 and the control mode is the mask |
| GeneralCommands.IpuTailEffect | io.openems.edge.ess.mr.gridcon/src/io/openems/edge/ess/mr/gridcon/GridconPCS.java:363-364 | the closing writeIPUParameters sets IPU k's limits, weights and mode, and leaves every earlier reference as it was |
| GeneralCommands.TailKeepsHead | io.openems.edge.ess.mr.gridcon/src/io/openems/edge/ess/mr/gridcon/GridconPCS.java:702-801 | writeIPUParameters never overrides U0, F0 or the P control mode |
| Recovery.HardRestart | io.openems.edge.ess.mr.gridcon/src/io/openems/edge/ess/mr/gridcon/GridconPCS.java:838-853 | the hard-reset output is switched on and the time recorded if and only if no restart is pending and the output resolves; otherwise nothing changes |
| Recovery.HardRestartLatches | io.openems.edge.ess.mr.gridcon/src/io/openems/edge/ess/mr/gridcon/GridconPCS.java:838-853 | once a restart is pending, a second doHardRestart at any time stages nothing and keeps the first timestamp |
| Recovery.AcknowledgeStep | io.openems.edge.ess.mr.gridcon/src/io/openems/edge/ess/mr/gridcon/GridconPCS.java:862-870 | ACKNOWLEDGE is staged and the time recorded if and only if none was sent or the last one is more than five seconds old |
| Recovery.AcknowledgeCooldown | io.openems.edge.ess.mr.gridcon/src/io/openems/edge/ess/mr/gridcon/GridconPCS.java:862-870 | two acknowledges at most five seconds apart send at most one ACKNOWLEDGE, and exactly one when the first may send |
| Recovery.ErrorHandling | io.openems.edge.ess.mr.gridcon/src/io/openems/edge/ess/mr/gridcon/GridconPCS.java:803-816 | it throws exactly on an unknown fault code and never clears the fault channels |
| Recovery.ErrorHandlingRoutes | io.openems.edge.ess.mr.gridcon/src/io/openems/edge/ess/mr/gridcon/GridconPCS.java:803-816 | the fault channel is set first; a fault needing a hard reset never acknowledges, and any other fault never touches the hard-reset output |
| Recovery.RestartTimer | io.openems.edge.ess.mr.gridcon/src/io/openems/edge/ess/mr/gridcon/GridconPCS.java:425-449 | while a restart is pending it never throws: strictly between 15 s and 45 s after the switch-off it switches the hard-reset output off and clears every fault channel (when the output resolves), strictly after 45 s it forgets the restart, and otherwise it stages nothing |
| Recovery.RunHandling | io.openems.edge.ess.mr.gridcon/src/io/openems/edge/ess/mr/gridcon/GridconPCS.java:505-556 | a missing link voltage does nothing; a link voltage more than 20 V from 800 V is a hard restart; otherwise every fault channel is cleared and the run commands are staged, and it never throws |
| Recovery.CcuStateHandling | io.openems.edge.ess.mr.gridcon/src/io/openems/edge/ess/mr/gridcon/GridconPCS.java:451-484 | ERROR runs the error handling, IDLE the start commands and RUN the run handling; every other state stages nothing; it throws only for an unknown fault code in ERROR, and never touches the off-grid timestamp |
| Recovery.OnGridState | io.openems.edge.ess.mr.gridcon/src/io/openems/edge/ess/mr/gridcon/GridconPCS.java:408-488 | the call throws exactly when the sync-device-bridge output cannot be resolved (staging nothing) or, with no restart pending, the CCU is in ERROR with an unknown fault code |
| Recovery.PendingRestartOnlyRunsTimer | io.openems.edge.ess.mr.gridcon/src/io/openems/edge/ess/mr/gridcon/GridconPCS.java:426-451 | while a restart is pending, handleOnGridState only runs the timer: hardware back on, with faults cleared, exactly inside (t+15 s, t+45 s), and the restart forgotten exactly after t+45 s |
| Recovery.RestartCycle | io.openems.edge.ess.mr.gridcon/src/io/openems/edge/ess/mr/gridcon/GridconPCS.java:426-451 | a restart at t0 is switched back on inside the window and forgotten after 45 s, after which a new restart latches again |
| Recovery.OnGridForgetsOffGrid | io.openems.edge.ess.mr.gridcon/src/io/openems/edge/ess/mr/gridcon/GridconPCS.java:408-409 | every on-grid call drops the off-grid detection time, even one that throws |
| Recovery.OffGridState | io.openems.edge.ess.mr.gridcon/src/io/openems/edge/ess/mr/gridcon/GridconPCS.java:1123-1205 | the off-grid commands are always staged first, even when the call throws; it throws exactly when the sync-device-bridge output or, after the five-second wait, the grid meter cannot be resolved; it never clears faults and leaves the restart and acknowledge timestamps alone |
| Recovery.OffGridWaitsFiveSeconds | io.openems.edge.ess.mr.gridcon/src/io/openems/edge/ess/mr/gridcon/GridconPCS.java:1165-1171 | the first off-grid call only records the time, no U0/F0 is staged for five seconds, and from then on both are staged |
| Recovery.OffGridSetpointRange | io.openems.edge.ess.mr.gridcon/src/io/openems/edge/ess/mr/gridcon/GridconPCS.java:1176-1201 | a missing meter value holds U0 and F0 at 1.0, and any other setpoint stays within the normalised voltage and frequency band |
| Recovery.ResetClearsEveryChannel | io.openems.edge.ess.mr.gridcon/src/io/openems/edge/ess/mr/gridcon/GridconPCS.java:490-494 | after resetErrorChannels every fault channel of the table reads false, whatever was staged for it before |
| Recovery.GridconPcs.constructor | io.openems.edge.ess.mr.gridcon/src/io/openems/edge/ess/mr/gridcon/GridconPCS.java:116-126 | the new driver's fault table is that of both enumerations, and no timestamp is set |
| Recovery.GridconPcs.ResetErrorChannels | io.openems.edge.ess.mr.gridcon/src/io/openems/edge/ess/mr/gridcon/GridconPCS.java:490-494 | stages false on every channel of the fault table and on nothing else |
| Recovery.GridconPcs.DoHardRestart | io.openems.edge.ess.mr.gridcon/src/io/openems/edge/ess/mr/gridcon/GridconPCS.java:838-853 | the timestamps and writes are those of HardRestart, and the fault table is unchanged |
| Recovery.GridconPcs.AcknowledgeErrors | io.openems.edge.ess.mr.gridcon/src/io/openems/edge/ess/mr/gridcon/GridconPCS.java:862-870 | the timestamps and writes are those of AcknowledgeStep, and the fault table is unchanged |
| Recovery.GridconPcs.DoErrorHandling | io.openems.edge.ess.mr.gridcon/src/io/openems/edge/ess/mr/gridcon/GridconPCS.java:803-816 | the timestamps, writes and exception are those of ErrorHandling |
| Recovery.GridconPcs.DoRunHandling | io.openems.edge.ess.mr.gridcon/src/io/openems/edge/ess/mr/gridcon/GridconPCS.java:505-556 | the timestamps and writes of RunHandling: nothing while the DC link voltage is unknown, a hard restart when it is more than 20 V off 800 V, and otherwise every fault channel cleared and the run commands staged |
| Recovery.GridconPcs.RunRestartTimer | io.openems.edge.ess.mr.gridcon/src/io/openems/edge/ess/mr/gridcon/GridconPCS.java:426-451 | the timestamps and writes of the restart timer, with every fault channel staged false when the hardware is switched back on |
| Recovery.GridconPcs.HandleCcuState | io.openems.edge.ess.mr.gridcon/src/io/openems/edge/ess/mr/gridcon/GridconPCS.java:453-487 | the timestamps, writes and exception of the CCU-state switch: the start sequence on IDLE, run handling on RUN, error handling on ERROR, and nothing in any other state |
| Recovery.GridconPcs.HandleOnGridState | io.openems.edge.ess.mr.gridcon/src/io/openems/edge/ess/mr/gridcon/GridconPCS.java:408-488 | the timestamps, writes and exception of one on-grid call: forget the off-grid detection, switch the sync-device bridge off, then run the restart timer while a restart is pending, or else the CCU-state switch followed by the error-code echo |
| Recovery.GridconPcs.HandleOffGridState | io.openems.edge.ess.mr.gridcon/src/io/openems/edge/ess/mr/gridcon/GridconPCS.java:1123-1202 | the timestamps, writes and exception of one off-grid call: the off-grid commands and the sync-device bridge on, then the five-second wait, then the U0/F0 setpoints from the grid meter |
| TimeSync.ByteOf | io.openems.edge.ess.mr.gridcon/src/io/openems/edge/ess/mr/gridcon/GridconPCS.java:590-593 | a Java byte cast read back unsigned: the residue of x modulo 256, which is x itself on 0..255 |
| TimeSync.BytesRoundTrip | io.openems.edge.ess.mr.gridcon/src/io/openems/edge/ess/mr/gridcon/GridconPCS.java:686-693 | splitting a little-endian value back into bytes returns the original bytes, and the value fits in 8 bits per byte |
| TimeSync.ConvertToInteger | io.openems.edge.ess.mr.gridcon/src/io/openems/edge/ess/mr/gridcon/GridconPCS.java:686-693 | narrowing the bit set to `int` keeps its low 32 bits, so only the first four bytes decide the result |
| TimeSync.LittleEndianLowWord | io.openems.edge.ess.mr.gridcon/src/io/openems/edge/ess/mr/gridcon/GridconPCS.java:686-693 | the bytes after the fourth add a multiple of 2^32, which the narrowing to `int` drops |
| TimeSync.FourBytes | io.openems.edge.ess.mr.gridcon/src/io/openems/edge/ess/mr/gridcon/GridconPCS.java:686-693 | convertToInteger of four bytes with the top bit clear is the little-endian sum of the bytes |
| TimeSync.WriteDateAndTime | io.openems.edge.ess.mr.gridcon/src/io/openems/edge/ess/mr/gridcon/GridconPCS.java:588-607 | stages the date word and then the time word |
| TimeSync.DateWord | io.openems.edge.ess.mr.gridcon/src/io/openems/edge/ess/mr/gridcon/GridconPCS.java:588-595 | the date word's bytes are day, day of week, year minus 2000 and month, in that order, and the word is positive |
| TimeSync.TimeWord | io.openems.edge.ess.mr.gridcon/src/io/openems/edge/ess/mr/gridcon/GridconPCS.java:597-601 | the time word's bytes are seconds, 0, hours and minutes, in that order |
| StringWeighting.GetBatteries | io.openems.edge.ess.mr.gridcon/src/io/openems/edge/ess/mr/gridcon/GridconPCS.java:1210-1245 | one entry per string whose component lookup yields a battery, in the order A, B, C (the same battery twice when two strings resolve to it); a failing lookup is skipped |
| StringWeighting.HandleBatteryData | io.openems.edge.ess.mr.gridcon/src/io/openems/edge/ess/mr/gridcon/GridconPCS.java:223-234 | the accumulated allowed charge and discharge are the 32-bit wrap of the exact sums over all batteries, and both are staged |
| StringWeighting.AllowedPowerSigns | io.openems.edge.ess.mr.gridcon/src/io/openems/edge/ess/mr/gridcon/GridconPCS.java:223-234 | with non-negative readings, the exact allowed charge is never positive and the exact discharge never negative |
| StringWeighting.CalculateSoc | io.openems.edge.ess.mr.gridcon/src/io/openems/edge/ess/mr/gridcon/GridconPCS.java:240-258 | the loop computes the capacity sums, or unset |
| StringWeighting.SocSumsUnset | io.openems.edge.ess.mr.gridcon/src/io/openems/edge/ess/mr/gridcon/GridconPCS.java:246-250 | the SoC is unset if and only if some battery lacks capacity or SoC |
| StringWeighting.SocUnsetPersists | io.openems.edge.ess.mr.gridcon/src/io/openems/edge/ess/mr/gridcon/GridconPCS.java:246-250 | an early return on one unknown battery is final: later batteries cannot set the SoC again |
| StringWeighting.UniformSoc | io.openems.edge.ess.mr.gridcon/src/io/openems/edge/ess/mr/gridcon/GridconPCS.java:240-258 | when every battery is at SoC s, the sums give exactly s |
| StringWeighting.WeightingMode | io.openems.edge.ess.mr.gridcon/src/io/openems/edge/ess/mr/gridcon/GridconPCS.java:373-406 | a returned presence mask is never 0 |
| StringWeighting.WeightingModeNamesStrings | io.openems.edge.ess.mr.gridcon/src/io/openems/edge/ess/mr/gridcon/GridconPCS.java:373-406 | the mask's octal digits flag exactly the strings counted; it is 73 exactly when all three are counted; it throws on a failed lookup or when no string is counted |
| StringWeighting.DischargeWeight | io.openems.edge.ess.mr.gridcon/src/io/openems/edge/ess/mr/gridcon/GridconPCS.java:997-1021 | a string discharges with weight equal to its maximum discharge current only above its minimum SoC, and with weight 0 otherwise or when absent |
| StringWeighting.ChargeWeight | io.openems.edge.ess.mr.gridcon/src/io/openems/edge/ess/mr/gridcon/GridconPCS.java:1022-1031 | a present string charges with weight equal to its maximum charge current, and an absent one with weight 0 |
| StringWeighting.Weights | io.openems.edge.ess.mr.gridcon/src/io/openems/edge/ess/mr/gridcon/GridconPCS.java:997-1068 | an absent string weighs 0 in every direction; discharging uses the discharge weights, charging the charge currents |
| StringWeighting.BalanceNeedsTwoStrings | io.openems.edge.ess.mr.gridcon/src/io/openems/edge/ess/mr/gridcon/GridconPCS.java:1032-1068 | at zero power with fewer than two strings present, all weights are 0 |
| StringWeighting.BalanceWeighsExcessVoltage | io.openems.edge.ess.mr.gridcon/src/io/openems/edge/ess/mr/gridcon/GridconPCS.java:1032-1068 | at zero power, weights are non-negative, 0 for absent strings and for the lowest string, and differ pairwise exactly as the voltages do |
| StringWeighting.BalanceMissingVoltage | io.openems.edge.ess.mr.gridcon/src/io/openems/edge/ess/mr/gridcon/GridconPCS.java:1032-1068 | at zero power, a present string without a voltage reading leaves every weight 0, since each of the four balanced combinations (lines 1038, 1047, 1055, 1063) needs all its voltages |
| StringWeighting.MaxChargePower | io.openems.edge.ess.mr.gridcon/src/io/openems/edge/ess/mr/gridcon/GridconPCS.java:1072-1096 | an absent string gives 0, and a present one the wrapped product of its charge current and charge voltage |
| StringWeighting.MaxDischargePower | io.openems.edge.ess.mr.gridcon/src/io/openems/edge/ess/mr/gridcon/GridconPCS.java:1072-1096 | an absent string gives 0, and a present one the wrapped product of its discharge current and minimum voltage |
| StringWeighting.IpuBlockChannels | io.openems.edge.ess.mr.gridcon/src/io/openems/edge/ess/mr/gridcon/GridconPCS.java:705-783 | one IPU block writes only that IPU's control channels |
| StringWeighting.IpuBlocksChannels | io.openems.edge.ess.mr.gridcon/src/io/openems/edge/ess/mr/gridcon/GridconPCS.java:705-783 | the blocks for n inverters write only IPUs 1..n |
| StringWeighting.IpuBlocksLimits | io.openems.edge.ess.mr.gridcon/src/io/openems/edge/ess/mr/gridcon/GridconPCS.java:705-783 | IPU k <= n ends with its own limits, the discharge limit negated |
| StringWeighting.WriteIpuParameters | io.openems.edge.ess.mr.gridcon/src/io/openems/edge/ess/mr/gridcon/GridconPCS.java:702-801 | eight writes per configured IPU followed by the eight DC/DC writes, among which the 800 V DC-link setpoint |
| StringWeighting.WriteIpuParametersEffect | io.openems.edge.ess.mr.gridcon/src/io/openems/edge/ess/mr/gridcon/GridconPCS.java:702-801 | IPUs 1..n get their limits and IPUs above n nothing; the DC/DC gets 800 V, the three weights and the mode |
| StringWeighting.WriteIpuParametersLimits | io.openems.edge.ess.mr.gridcon/src/io/openems/edge/ess/mr/gridcon/GridconPCS.java:705-783 | the inverter-count switch writes limits to exactly the configured IPUs |
| StringWeighting.WriteIpuParametersChannels | io.openems.edge.ess.mr.gridcon/src/io/openems/edge/ess/mr/gridcon/GridconPCS.java:702-801 | writeIPUParameters touches only IPU and DC/DC control channels |
| StringWeighting.DcdcWritesChannels | io.openems.edge.ess.mr.gridcon/src/io/openems/edge/ess/mr/gridcon/GridconPCS.java:785-800 | the DC/DC tail touches only DC/DC control channels |
| StringWeighting.DcdcWritesEffect | io.openems.edge.ess.mr.gridcon/src/io/openems/edge/ess/mr/gridcon/GridconPCS.java:785-800 | after the DC/DC tail the setpoint is 800 V and the weights and mode are those given, whatever came before |
| StringWeighting.IpuLimitsSurviveDcdc | io.openems.edge.ess.mr.gridcon/src/io/openems/edge/ess/mr/gridcon/GridconPCS.java:785-800 | the DC/DC tail never overrides an IPU limit |
| StringWeighting.DoStringWeighting | io.openems.edge.ess.mr.gridcon/src/io/openems/edge/ess/mr/gridcon/GridconPCS.java:985-1105 | succeeds if and only if the presence mask exists and no configured string lookup throws |
| StringWeighting.StringWeightingWrites | io.openems.edge.ess.mr.gridcon/src/io/openems/edge/ess/mr/gridcon/GridconPCS.java:985-1105 | IPU k <= n gets string k's power limits and IPUs above n none; the DC/DC gets the mask and the weights for the sign of the active power |
| StringWeighting.StringWeightingValue | io.openems.edge.ess.mr.gridcon/src/io/openems/edge/ess/mr/gridcon/GridconPCS.java:1101-1104 | doStringWeighting is writeIPUParameters with its weights, the per-string limits and the mask |
| StringWeighting.StringLimitsWritten | io.openems.edge.ess.mr.gridcon/src/io/openems/edge/ess/mr/gridcon/GridconPCS.java:1072-1104 | with the per-string limits, IPU k <= n ends with string k's power limits |
| StringWeighting.StringWeightingIpuWrites | io.openems.edge.ess.mr.gridcon/src/io/openems/edge/ess/mr/gridcon/GridconPCS.java:1072-1104 | IPU k <= n gets string k's maximum charge power and negated maximum discharge power, and IPUs above n are not written |
| StringWeighting.LimitsOfIpu | io.openems.edge.ess.mr.gridcon/src/io/openems/edge/ess/mr/gridcon/GridconPCS.java:1072-1096 | IPUs 1, 2 and 3 take the power limits of strings A, B and C |
| StringWeighting.StringWeightingDcdcWrites | io.openems.edge.ess.mr.gridcon/src/io/openems/edge/ess/mr/gridcon/GridconPCS.java:1103-1104 | the DC/DC control mode is the presence mask, and the three weights are those of the active power's sign |
| StringWeighting.ZeroWeightsAccepted | io.openems.edge.ess.mr.gridcon/src/io/openems/edge/ess/mr/gridcon/GridconPCS.java:400-403 | three present strings at SoC 0 discharging pass the mask check and stage all-zero weights |
| StringWeighting.PowerFactor | io.openems.edge.ess.mr.gridcon/src/io/openems/edge/ess/mr/gridcon/GridconPCS.java:970-980 | the factor throws exactly on a maximum apparent power of 0, and is 0 when that maximum is unknown |
| StringWeighting.PowerFactorTruncates | io.openems.edge.ess.mr.gridcon/src/io/openems/edge/ess/mr/gridcon/GridconPCS.java:970-980 | the factor is the negated power divided by the maximum, rounded toward zero: 0 for any power below the maximum in magnitude, and -1 or 1 only at ±max |
| StringWeighting.SmallPowerFactor | io.openems.edge.ess.mr.gridcon/src/io/openems/edge/ess/mr/gridcon/GridconPCS.java:978-979 | a power smaller in magnitude than the maximum gives the factor 0 |
| StringWeighting.FullPowerFactor | io.openems.edge.ess.mr.gridcon/src/io/openems/edge/ess/mr/gridcon/GridconPCS.java:978-979 | full discharge power gives -1 and full charge power gives 1 |
| StringWeighting.ApplyPower | io.openems.edge.ess.mr.gridcon/src/io/openems/edge/ess/mr/gridcon/GridconPCS.java:950-983 | outside normal operation nothing is staged and the call completes, and an undecidable state machine throws before staging anything |
| StringWeighting.ApplyPowerNormal | io.openems.edge.ess.mr.gridcon/src/io/openems/edge/ess/mr/gridcon/GridconPCS.java:965-983 | in normal operation the call completes exactly when the string weighting does and the maximum apparent power is not 0; the weighting's writes come first and stay staged when the division throws; after a completed call P_REF and Q_REF hold the two power factors and every other channel keeps the weighting's value |
| StringWeighting.PowerFactorRange | io.openems.edge.ess.mr.gridcon/src/io/openems/edge/ess/mr/gridcon/GridconPCS.java:970-980 | the factor is 0 exactly when the power is below the maximum in magnitude, and lies in [-1, 1] exactly when the power is below twice the maximum, so the range the comment asks for holds only for powers under 2 * max |
| StringWeighting.NegMagnitude | io.openems.edge.ess.mr.gridcon/src/io/openems/edge/ess/mr/gridcon/GridconPCS.java:978 | Java negation keeps the magnitude of every int, the minimum value included |
| StringWeighting.ApplyPowerReference | io.openems.edge.ess.mr.gridcon/src/io/openems/edge/ess/mr/gridcon/GridconPCS.java:950-983 | in normal operation, any power below the maximum in magnitude completes and stages a P reference of 0 |
| GridconRegisters.CommandTask | io.openems.edge.ess.mr.gridcon/src/io/openems/edge/ess/mr/gridcon/GridconPCS.java:1291-1331 | the command block at 32560 has nine elements and carries DISABLE_IPU_1 at bit 15 of its first word |
| GridconRegisters.CommandPacked | io.openems.edge.ess.mr.gridcon/src/io/openems/edge/ess/mr/gridcon/GridconPCS.java:1291-1331 | the command block's elements lie back to back from 32560 |
| GridconRegisters.CommandMirrorTask | io.openems.edge.ess.mr.gridcon/src/io/openems/edge/ess/mr/gridcon/GridconPCS.java:1335-1367 | the read-back at 32880 has seven elements and reads DISABLE_IPU_1 from bit 16 |
| GridconRegisters.CommandMirrorPacked | io.openems.edge.ess.mr.gridcon/src/io/openems/edge/ess/mr/gridcon/GridconPCS.java:1335-1367 | the read-back's elements lie back to back from 32880 |
| GridconRegisters.CommandMirrorBitMoved | io.openems.edge.ess.mr.gridcon/src/io/openems/edge/ess/mr/gridcon/GridconPCS.java:1291-1367 | the read-back mirrors the command block 320 registers up on every element but the first, where DISABLE_IPU_1 moves from bit 15 to 16 and out of the register |
| GridconRegisters.CommandMirrorShifted | io.openems.edge.ess.mr.gridcon/src/io/openems/edge/ess/mr/gridcon/GridconPCS.java:1291-1367 | every element after the first word is the command element moved up by 320 |
| GridconRegisters.DisableIpu1At | io.openems.edge.ess.mr.gridcon/src/io/openems/edge/ess/mr/gridcon/GridconPCS.java:1291-1367 | the disable word holds IPU 1 at the given bit and at no other bit |
| GridconRegisters.Protocol | io.openems.edge.ess.mr.gridcon/src/io/openems/edge/ess/mr/gridcon/GridconPCS.java:1247-1856 | the protocol has 9 + 3n tasks and starts with the five fixed tasks |
| GridconRegisters.BaseTasksAt | io.openems.edge.ess.mr.gridcon/src/io/openems/edge/ess/mr/gridcon/GridconPCS.java:1249-1430 | the protocol starts with the CCU state, command, command mirror, control and control mirror tasks |
| GridconRegisters.IpuTasksAt | io.openems.edge.ess.mr.gridcon/src/io/openems/edge/ess/mr/gridcon/GridconPCS.java:1432-1678 | IPU k <= n contributes its status, control and mirror tasks at positions 5+3(k-1) onward |
| GridconRegisters.IpuAddresses | io.openems.edge.ess.mr.gridcon/src/io/openems/edge/ess/mr/gridcon/GridconPCS.java:1432-1678 | IPU k's status is read at 33168+32(k-1), and its control and limits are written at 32624+32(k-1) onward |
| GridconRegisters.UnconfiguredIpusAbsent | io.openems.edge.ess.mr.gridcon/src/io/openems/edge/ess/mr/gridcon/GridconPCS.java:1432-1678 | no channel of an IPU above the inverter count appears anywhere in the protocol |
| GridconRegisters.IpuControlElements | io.openems.edge.ess.mr.gridcon/src/io/openems/edge/ess/mr/gridcon/GridconPCS.java:1475-1496 | the IPU control block has eight float doublewords, with the two power limits at offsets 12 and 14 |
| GridconRegisters.IpuMirrored | io.openems.edge.ess.mr.gridcon/src/io/openems/edge/ess/mr/gridcon/GridconPCS.java:1475-1518 | each configured IPU's control block is read back 320 registers up |
| GridconRegisters.DcdcFollowsIpus | io.openems.edge.ess.mr.gridcon/src/io/openems/edge/ess/mr/gridcon/GridconPCS.java:1686-1706 | the DC/DC blocks occupy the slot right after the last configured IPU |
| GridconRegisters.DcdcTasksAt | io.openems.edge.ess.mr.gridcon/src/io/openems/edge/ess/mr/gridcon/GridconPCS.java:1680-1842 | the protocol has 9+3n tasks, the last four being the DC/DC control, mirror, state and measurements |
| GridconRegisters.DcdcAddressesInProtocol | io.openems.edge.ess.mr.gridcon/src/io/openems/edge/ess/mr/gridcon/GridconPCS.java:1680-1842 | the DC/DC setpoint, status and string-A voltage sit at 32624+32n, 33168+32n and 33488+32n |
| GridconRegisters.DcdcMirrored | io.openems.edge.ess.mr.gridcon/src/io/openems/edge/ess/mr/gridcon/GridconPCS.java:1712-1760 | the DC/DC control block is read back 320 registers up |
| GridconRegisters.ControlMirrored | io.openems.edge.ess.mr.gridcon/src/io/openems/edge/ess/mr/gridcon/GridconPCS.java:1372-1430 | the control-parameter block is read back 320 registers up |
| GridconRegisters.WriteTasks | io.openems.edge.ess.mr.gridcon/src/io/openems/edge/ess/mr/gridcon/GridconPCS.java:1247-1856 | the only write tasks are the command, control, configured IPU control and DC/DC control blocks |
| GridconRegisters.WritesAreMirrored | io.openems.edge.ess.mr.gridcon/src/io/openems/edge/ess/mr/gridcon/GridconPCS.java:1247-1856 | every write task except the command block has a read-back 320 registers up mapping a prefix of its channels |
| GridconRegisters.ProtocolMembers | io.openems.edge.ess.mr.gridcon/src/io/openems/edge/ess/mr/gridcon/GridconPCS.java:1247-1856 | every task is a base task, a DC/DC task or a task of a configured IPU |
| GridconRegisters.ProtocolPacked | io.openems.edge.ess.mr.gridcon/src/io/openems/edge/ess/mr/gridcon/GridconPCS.java:1247-1856 | in every task the elements lie back to back from its start address, without gaps or overlaps |
| GridconRegisters.StatusPacked | io.openems.edge.ess.mr.gridcon/src/io/openems/edge/ess/mr/gridcon/GridconPCS.java:1440-1474 | a unit status block is gap-free and 32 registers long |
| GridconRegisters.StatusHead | io.openems.edge.ess.mr.gridcon/src/io/openems/edge/ess/mr/gridcon/GridconPCS.java:1440-1474 | a status block has seventeen elements and starts with the state machine word |
| GridconRegisters.CcuStatePacked | io.openems.edge.ess.mr.gridcon/src/io/openems/edge/ess/mr/gridcon/GridconPCS.java:1253-1289 | the CCU state block is gap-free from 32528 |
| GensetController.LoadPower | io.openems.edge.genset.deepsea8660/src/io/openems/edge/genset/deepsea8660/controller/controllerImpl.java:176-190 | the load is the wrapped sum of the grid and three genset powers when all four are known, and 0 otherwise |
| GensetController.Setpoint | io.openems.edge.genset.deepsea8660/src/io/openems/edge/genset/deepsea8660/controller/controllerImpl.java:126-130 | it throws exactly for genset size 0, and otherwise lies in 0..100 |
| GensetController.SetpointIsShare | io.openems.edge.genset.deepsea8660/src/io/openems/edge/genset/deepsea8660/controller/controllerImpl.java:126-130 | without overflow the setpoint is the percentage of load per genset size, reset to 0 above 100 |
| GensetController.Output | io.openems.edge.genset.deepsea8660/src/io/openems/edge/genset/deepsea8660/controller/controllerImpl.java:192-203 | four panel writes, first the power limit and last the remote-control source |
| GensetController.ControlKey | io.openems.edge.genset.deepsea8660/src/io/openems/edge/genset/deepsea8660/controller/controllerImpl.java:205-212 | the system control key followed by its complement |
| GensetController.InShedWindow | io.openems.edge.genset.deepsea8660/src/io/openems/edge/genset/deepsea8660/controller/controllerImpl.java:117-119 | a shedding end that is not in the future decides "outside" without reading the start, and "inside" needs a night hour (before 6 or from 18) |
| GensetController.GensetFrequencyAverage | io.openems.edge.genset.deepsea8660/src/io/openems/edge/genset/deepsea8660/controller/controllerImpl.java:214-221 | an average exists exactly when all three frequencies do, and for non-negative frequencies whose sum fits an int it is that sum divided by 3000, rounded down |
| GensetController.ShedWindowIff | io.openems.edge.genset.deepsea8660/src/io/openems/edge/genset/deepsea8660/controller/controllerImpl.java:117-119 | inside the shedding window if and only if both bounds are known, now lies strictly between them and the hour is before 6 or from 18 on; undecidable exactly when a needed bound is missing |
| GensetController.Step | io.openems.edge.genset.deepsea8660/src/io/openems/edge/genset/deepsea8660/controller/controllerImpl.java:92-174 | every cycle recomputes the load power; an exception in the window test leaves the other fields and stages nothing; every cycle that stages anything ends with setOutput (active power limit first, remote switch last) |
| GensetController.WindowCycle | io.openems.edge.genset.deepsea8660/src/io/openems/edge/genset/deepsea8660/controller/controllerImpl.java:117-138 | inside the window, with a grid frequency in (45, 55) Hz and a known grid power, the genset is switched on at the setpoint (nothing is written for genset size 0); outside that band power and remote are zeroed |
| GensetController.StopWhileRunning | io.openems.edge.genset.deepsea8660/src/io/openems/edge/genset/deepsea8660/controller/controllerImpl.java:139-148 | when the window closes on a running genset, STOP is sent, and the state moves to switching-off exactly when the genset frequency falls below 5 |
| GensetController.StagedKeysComplemented | io.openems.edge.genset.deepsea8660/src/io/openems/edge/genset/deepsea8660/controller/controllerImpl.java:147-153 | every staged system control key is immediately followed by its complement, and the two sum to 65535 |
| GensetController.CycleWrites | io.openems.edge.genset.deepsea8660/src/io/openems/edge/genset/deepsea8660/controller/controllerImpl.java:117-166 | one cycle writes nothing, a zero output, STOP or AUTO followed by a zero output, or in the window the setpoint output |
| GensetController.OutputBounds | io.openems.edge.genset.deepsea8660/src/io/openems/edge/genset/deepsea8660/controller/controllerImpl.java:126-166 | every power limit written is within 0..100, and outside the window power and remote are always 0 |
| GensetController.StepPreservesValid | io.openems.edge.genset.deepsea8660/src/io/openems/edge/genset/deepsea8660/controller/controllerImpl.java:139-164 | the spin-down counter stays within 0..10 and is 0 whenever the genset is not switching off |
| GensetController.AutoForElevenCycles | io.openems.edge.genset.deepsea8660/src/io/openems/edge/genset/deepsea8660/controller/controllerImpl.java:149-160 | while switching off outside the window, AUTO is sent every cycle and the genset returns to off after exactly eleven cycles |
| GensetController.IdleStaysIdle | io.openems.edge.genset.deepsea8660/src/io/openems/edge/genset/deepsea8660/controller/controllerImpl.java:161-166 | an off genset outside the window stays off and only zero outputs are written |
| GensetController.LoadOffsetController.constructor | io.openems.edge.genset.deepsea8660/src/io/openems/edge/genset/deepsea8660/controller/controllerImpl.java:48-51 | a new controller starts with the genset off, counter 0 and load 0 |
| GensetController.LoadOffsetController.CalcLoadPower | io.openems.edge.genset.deepsea8660/src/io/openems/edge/genset/deepsea8660/controller/controllerImpl.java:176-190 | the load-power field becomes LoadPower of the readings, and the state and counter are unchanged |
| GensetController.LoadOffsetController.Run | io.openems.edge.genset.deepsea8660/src/io/openems/edge/genset/deepsea8660/controller/controllerImpl.java:92-174 | the new state and the writes are those of one Step from the old state |
| DeepSea.ClampTotal | io.openems.edge.genset.deepsea8660/src/io/openems/edge/genset/deepsea8660/DeepSea8660Impl.java:153-155 | a total within ±2000 is kept, and any other is replaced by 0, so the result is always within ±2000 |
| DeepSea.PhaseSum | io.openems.edge.genset.deepsea8660/src/io/openems/edge/genset/deepsea8660/DeepSea8660Impl.java:152 | the three phase powers summed with 32-bit wrap-around |
| DeepSea.SetStartStop | io.openems.edge.genset.deepsea8660/src/io/openems/edge/genset/deepsea8660/DeepSea8660Impl.java:171-184 | START, STOP and AUTO all write nothing |
| DeepSea.SyncPanelHandleEvent | io.openems.edge.genset.deepsea8660/src/io/openems/edge/genset/deepsea8660/DeepSea8660Impl.java:136-164 | a total is staged exactly when the component is enabled, the topic is the one before the controllers and all three phases are present, and it lies within ±2000 |
| DeepSea.GensetHandleEvent | io.openems.edge.genset.deepsea8660/src/io/openems/edge/genset/deepsea8610/genset/DeepSeaGensetImpl.java:119-148 | a total is staged only when enabled and on the topic before the controllers, and it lies within ±2000 |
| DeepSea.SyncPanelTotal | io.openems.edge.genset.deepsea8660/src/io/openems/edge/genset/deepsea8660/DeepSea8660Impl.java:136-164 | a total is staged if and only if the panel is enabled, the topic is before-controllers and all phases are known; it always lies within ±2000, equals the sum when the sum is within ±2000, and is 0 when the sum is outside ±2000 but within int range |
| DeepSea.GensetTotal | io.openems.edge.genset.deepsea8660/src/io/openems/edge/genset/deepsea8610/genset/DeepSeaGensetImpl.java:119-148 | the genset total behaves like the panel's, except that a fault before the sum stages 0; it is always within ±2000 |
| DeepSeaRegisters.SyncPanelProtocol | io.openems.edge.genset.deepsea8660/src/io/openems/edge/genset/deepsea8660/DeepSea8660Impl.java:95-133 | the sync panel protocol has nine tasks |
| DeepSeaRegisters.TablesPacked | io.openems.edge.genset.deepsea8660/src/io/openems/edge/genset/deepsea8660/DeepSea8660Impl.java:95-133 | in both register tables every task's elements lie back to back from its start |
| DeepSeaRegisters.ControllerOutputsReachPanel | io.openems.edge.genset.deepsea8660/src/io/openems/edge/genset/deepsea8660/DeepSea8660Impl.java:118-132 | every channel the controller writes is mapped to a write register, and read back at the same address except the control keys |
| DeepSeaRegisters.ControlKeyBlock | io.openems.edge.genset.deepsea8660/src/io/openems/edge/genset/deepsea8660/DeepSea8660Impl.java:130-132 | the key and its complement are written together at 4104-4105, and by no other task |
| DeepSeaRegisters.KeyOnlyInBlock | io.openems.edge.genset.deepsea8660/src/io/openems/edge/genset/deepsea8660/DeepSea8660Impl.java:130-132 | a mapped control-key element can only be in the last task |
| DeepSeaRegisters.LimitsReadBlock | io.openems.edge.genset.deepsea8660/src/io/openems/edge/genset/deepsea8660/DeepSea8660Impl.java:96-100 | the first read block starts at 35109, is gap-free and skips 35110 with a dummy |
| DeepSeaRegisters.GensetProtocol | io.openems.edge.genset.deepsea8660/src/io/openems/edge/genset/deepsea8610/genset/DeepSeaGensetImpl.java:92-111 | the genset table has three tasks and all of them read (FC3); nothing is written to the genset |
| DeepSeaRegisters.GensetRegisters | io.openems.edge.genset.deepsea8660/src/io/openems/edge/genset/deepsea8610/genset/DeepSeaGensetImpl.java:95-110 | the genset frequency is read at 1031 and phase k's power at 1050+2k |
| EspStage.Fold | io.openems.edge.loadshedding.esp/src/io/openems/edge/loadshedding/esp/EspImpl.java:193 | case folding maps each capital A-Z to the lower-case letter 32 code points above it (its own lower case) and leaves every other character alone |
| EspStage.Group | io.openems.edge.loadshedding.esp/src/io/openems/edge/loadshedding/esp/EspImpl.java:197 | the captured group is a non-empty run of digits |
| EspStage.FindFrom | io.openems.edge.loadshedding.esp/src/io/openems/edge/loadshedding/esp/EspImpl.java:196 | a position find() reports lies at or after its start and the pattern matches there |
| EspStage.FindFromFirst | io.openems.edge.loadshedding.esp/src/io/openems/edge/loadshedding/esp/EspImpl.java:196 | find() returns the first match position from its start |
| EspStage.FindFromNone | io.openems.edge.loadshedding.esp/src/io/openems/edge/loadshedding/esp/EspImpl.java:196 | find() fails if and only if no position from its start matches |
| EspStage.FirstMatchFound | io.openems.edge.loadshedding.esp/src/io/openems/edge/loadshedding/esp/EspImpl.java:196 | the first matching position of the note is the one found |
| EspStage.ExtractStageNumber | io.openems.edge.loadshedding.esp/src/io/openems/edge/loadshedding/esp/EspImpl.java:192-202 | the result is -1 or a stage number within int range, or a parse failure |
| EspStage.StageNumberMeaning | io.openems.edge.loadshedding.esp/src/io/openems/edge/loadshedding/esp/EspImpl.java:192-202 | -1 if and only if no "stage", spaces, digits match exists; otherwise the decimal value of the first match's digits, or a failure when it exceeds int range |
| EspStage.CaseInsensitive | io.openems.edge.loadshedding.esp/src/io/openems/edge/loadshedding/esp/EspImpl.java:193 | notes that differ only in letter case give the same stage number |
| EspStage.DecimalValue | io.openems.edge.loadshedding.esp/src/io/openems/edge/loadshedding/esp/EspImpl.java:198 | the value of n digits is below 10^n |
| EspStage.ShortGroupParses | io.openems.edge.loadshedding.esp/src/io/openems/edge/loadshedding/esp/EspImpl.java:192-202 | a first match whose digit group has at most nine digits always parses to a non-negative stage; only ten digits or more can throw |
| EspStage.DecimalRoundTrip | io.openems.edge.loadshedding.esp/src/io/openems/edge/loadshedding/esp/EspImpl.java:198 | parsing the decimal digits of n gives n back |
| EspStage.StageRoundTrip | io.openems.edge.loadshedding.esp/src/io/openems/edge/loadshedding/esp/EspImpl.java:193-198 | "stage" in any case, spaces and the digits of n give back n for any n in int range |

## Left out

- StringWeighting.CalculateSoc: models the two capacity sums and the unset case, but not the final float division and `Math.round`. Floating-point rounding is not modelled, so the SoC is stated through the exact sums (`UniformSoc`).
- The ±20 V DC-link check and the off-grid normalisation of frequency and voltage are computed in reals rather than IEEE floats. Results can differ at float rounding boundaries.
- The active power published as the float sum of the three IPU DC-link powers (GridconPCS.java lines 1845-1853) is a listener on float channels and is not part of this model.
- `handleOnGridNormalOperation` (GridconPCS.java:281-326) is not modelled. Each of its statements is a builder chain that ends in `writeToChannels`, so it stages, in order: sync approval, short-circuit handling, current-control mode, parameter set 1, U0 1.0 and F0 1.035; active-power control mode and a Q limit of 1.0; the IPU charge and discharge limits; and the 800 V DC-link setpoint with the string control mode. The builder classes (CommandControlRegisters, CcuControlParameters, IpuInverterControl, DcdcControl) and the InverterCount enumeration are not part of this model, so the channels they address, the values an empty builder writes and the maximum apparent power per inverter count are unknown here. Because `case ONE` and `case TWO` have no `break`, every inverter count falls through to `case THREE`, so IPUs 1, 2 and 3 always end with the full limits (charge -max, discharge +max), whatever count is configured.
- The ESP HTTP polling task and its null start time are network I/O and are not part of this model. The same holds for the DNP3 component.
- Channel-declaration interfaces, `Config` annotations and OSGi activation are not part of this model.
- Logging, `System.out` output, the wall clock and the time zone are left out. The current time in milliseconds, the hour and the date are parameters.
- `HashMap` iteration order is not modelled. `resetErrorChannels` is stated as "every fault channel staged false and nothing else", without an order.
- The CCU error code is an unsigned 32-bit register read as a Java `int`. The model takes the `int` as given and does not model the register's unsigned view.
- Conversions from `int` to `float` for staged weights and limits are exact in the model. Values above 2^24 would round in the source.
- Exceptions thrown by channel access in the DeepSea genset driver are a `Fault` parameter, not derived from channel contents.
- Register scale factors are recorded in the tables but not applied to values.
- The Gridcon register tables do not record the task priorities (HIGH for the CCU state block at 32528, LOW for the mirrors, status and measurement blocks). They also omit the `ElementToChannelConverter.INVERT` on the DC-link active-power element of each IPU and DC/DC status block (GridconPCS.java:1453, 1536, 1618, 1778). Both affect only polling order and the sign of a read value, and no modelled operation reads either.
- `GensetController.Step` and `GensetController.LoadOffsetController.Run` do not model two failure paths of `run()`. These are a failing `getComponent` before the try block (controllerImpl.java:94-98) and a failing channel lookup inside `setOutput` or `setControlKey`. Both propagate out of `run()`. The model assumes the components and channels resolve.
- The fault enumerations `ErrorCodeChannelId` and `ErrorCodeChannelId1` are not part of this model. Their channels are an input list of code, family and needs-hard-reset.
