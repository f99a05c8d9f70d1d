/**
 * The genset load-offset controller (controllerImpl): while a load-shedding
 * window is open at night it runs the gensets at a setpoint proportional to
 * the site load; once the window closes it sends the sync panel the STOP key
 * until the gensets have spun down, then the AUTO key for eleven cycles.
 */
module GensetController {
  import opened Wrappers
  import opened JavaInt

  /** prevGensetState: 0 = genset off, 1 = genset on, 2 = switching off. */
  const GensetOff: int := 0
  const GensetOn: int := 1
  const SwitchingOff: int := 2

  /** The system control keys of the sync panel and their compliments. */
  const StopKey: int := 35700
  const StopKeyCompliment: int := 29835
  const AutoKey: int := 35701
  const AutoKeyCompliment: int := 29834

  /** The write channels of the sync panel the controller addresses. */
  datatype PanelChannel =
    | ActivePowerLimit | ReactivePowerLimit | BusOrMainsMode | RemoteControlSource1
    | SystemControlKey | SystemControlKeyCompliment

  datatype PanelWrite = PanelWrite(channel: PanelChannel, value: int)

  /** gen_size_id and gen_percentage_id of the configuration. */
  datatype Config = Config(genSize: Int32, genPercentage: Int32)

  /**
   * What one cycle reads: the shedding window of the load-shedding
   * component, the sync panel's grid frequency and total power, each genset's
   * total power and frequency, the wall clock in milliseconds and the hour of
   * day in GMT+2.
   */
  datatype Readings = Readings(
    shedStart: Option<Int32>, shedEnd: Option<Int32>,
    gridFrequency: Option<Int32>, gridTotalPower: Option<Int32>,
    genset1Power: Option<Int32>, genset2Power: Option<Int32>, genset3Power: Option<Int32>,
    genset1Frequency: Option<Int32>, genset2Frequency: Option<Int32>, genset3Frequency: Option<Int32>,
    nowMillis: int, hour: int)

  /** The controller's fields. */
  datatype ControllerState = ControllerState(prevGensetState: Int32, counter: Int32, loadPower: Int32)

  /** The fields after one cycle and the writes staged on the sync panel. */
  datatype Outcome = Outcome(state: ControllerState, writes: seq<PanelWrite>)

  /** The states the controller can reach from its initial one. */
  predicate Valid(s: ControllerState) {
    && s.prevGensetState in {GensetOff, GensetOn, SwitchingOff}
    && 0 <= s.counter <= 10
    && (s.prevGensetState != SwitchingOff ==> s.counter == 0)
  }

  /** calcLoadPower: grid total plus the three genset totals; a missing value (an exception) gives 0. */
  function LoadPower(r: Readings): (p: Int32)
    ensures r.gridTotalPower.None? || r.genset1Power.None? || r.genset2Power.None? || r.genset3Power.None? ==> p == 0
    ensures r.gridTotalPower.Some? && r.genset1Power.Some? && r.genset2Power.Some? && r.genset3Power.Some? ==>
      p == Wrap(r.gridTotalPower.value + r.genset1Power.value + r.genset2Power.value + r.genset3Power.value)
  {
    if r.gridTotalPower.None? || r.genset1Power.None? || r.genset2Power.None? || r.genset3Power.None? then 0
    else
      AddFour(r.gridTotalPower.value, r.genset1Power.value, r.genset2Power.value, r.genset3Power.value);
      Add(Add(Add(r.gridTotalPower.value, r.genset1Power.value), r.genset2Power.value), r.genset3Power.value)
  }

  /** System.currentTimeMillis() / 1000. */
  function NowSeconds(r: Readings): int {
    TruncDiv(r.nowMillis, 1000)
  }

  /**
   * The shedding test, evaluated left to right: the end is read first and the
   * start only when the end lies ahead; None is the exception of a missing value.
   */
  function InShedWindow(r: Readings): (w: Option<bool>)
    ensures r.shedEnd.Some? && r.shedEnd.value <= NowSeconds(r) ==> w == Some(false)
    ensures w == Some(true) ==> r.hour < 6 || r.hour >= 18
  {
    if r.shedEnd.None? then None
    else if !(r.shedEnd.value > NowSeconds(r)) then Some(false)
    else if r.shedStart.None? then None
    else Some(r.shedStart.value < NowSeconds(r) && (r.hour < 6 || r.hour >= 18))
  }

  /** The setpoint gen_percentage * load / gen_size, forced to 0 outside [0, 100]; None when gen_size is 0. */
  function Setpoint(cfg: Config, load: Int32): (p: Option<Int32>)
    ensures p.None? <==> cfg.genSize == 0
    ensures p.Some? ==> 0 <= p.value <= 100
  {
    if cfg.genSize == 0 then None
    else
      var q := Div(Mul(cfg.genPercentage, load), cfg.genSize);
      Some(if q > 100 || q < 0 then 0 else q)
  }

  /** checkGensetFreqAvg: the sum of the three genset frequencies / 3000; None when one is missing. */
  function GensetFrequencyAverage(r: Readings): (avg: Option<Int32>)
    ensures avg.Some? <==> r.genset1Frequency.Some? && r.genset2Frequency.Some? && r.genset3Frequency.Some?
    ensures avg.Some? ==>
      var sum := r.genset1Frequency.value + r.genset2Frequency.value + r.genset3Frequency.value;
      0 <= r.genset1Frequency.value && 0 <= r.genset2Frequency.value && 0 <= r.genset3Frequency.value && sum <= MaxInt ==>
      avg.value == sum / 3000
  {
    if r.genset1Frequency.None? || r.genset2Frequency.None? || r.genset3Frequency.None? then None
    else
      var f1, f2, f3 := r.genset1Frequency.value, r.genset2Frequency.value, r.genset3Frequency.value;
      AddThree(f1, f2, f3);
      if 0 <= f1 && 0 <= f2 && 0 <= f3 && f1 + f2 + f3 <= MaxInt then
        var q := Div(Add(Add(f1, f2), f3), 3000);
        assert q == (f1 + f2 + f3) / 3000 by { QuotientBounds(f1 + f2 + f3, 3000); }
        Some(q)
      else Some(Div(Add(Add(f1, f2), f3), 3000))
  }

  /** setOutput: active power limit, reactive power limit 0, bus-or-mains mode 0 and the remote switch. */
  function Output(power: int, remote: int): (ws: seq<PanelWrite>)
    ensures |ws| == 4 && ws[0] == PanelWrite(ActivePowerLimit, power) && ws[3] == PanelWrite(RemoteControlSource1, remote)
  {
    [PanelWrite(ActivePowerLimit, power), PanelWrite(ReactivePowerLimit, 0),
     PanelWrite(BusOrMainsMode, 0), PanelWrite(RemoteControlSource1, remote)]
  }

  /** setControlKey: the key, then its compliment. */
  function ControlKey(key: int, compliment: int): (ws: seq<PanelWrite>)
    ensures |ws| == 2 && ws[0].channel == SystemControlKey && ws[1].channel == SystemControlKeyCompliment
  {
    [PanelWrite(SystemControlKey, key), PanelWrite(SystemControlKeyCompliment, compliment)]
  }

  /**
   * One run() cycle from fields `s`. The load power is recomputed first; an
   * exception inside the try block (a missing value, a zero gen_size) leaves
   * the other fields as they were and stages nothing.
   */
  function Step(cfg: Config, s: ControllerState, r: Readings): (o: Outcome)
    ensures o.state.loadPower == LoadPower(r)
    ensures InShedWindow(r).None? ==> o == Outcome(s.(loadPower := LoadPower(r)), [])
    ensures o.writes != [] ==> |o.writes| >= 4 && o.writes[|o.writes| - 4].channel == ActivePowerLimit && o.writes[|o.writes| - 1].channel == RemoteControlSource1
  {
    var load := LoadPower(r);
    var s1 := s.(loadPower := load);
    var window := InShedWindow(r);
    if window.None? then Outcome(s1, [])
    else if window.value then
      if r.gridFrequency.None? then Outcome(s1, [])
      else if 45000 < r.gridFrequency.value < 55000 && r.gridTotalPower.Some? then
        match Setpoint(cfg, load)
        case None => Outcome(s1, [])
        case Some(p) => Outcome(ControllerState(GensetOn, 0, load), Output(p, 1))
      else Outcome(s1, Output(0, 0))
    else if s.prevGensetState == GensetOn then
      match GensetFrequencyAverage(r)
      case None => Outcome(s1, [])
      case Some(avg) =>
        Outcome(s1.(prevGensetState := if avg < 5 then SwitchingOff else GensetOn), ControlKey(StopKey, StopKeyCompliment) + Output(0, 0))
    else if s.prevGensetState == SwitchingOff then
      var c := Add(s.counter, 1);
      Outcome(if c > 10 then ControllerState(GensetOff, 0, load) else s1.(counter := c),
              ControlKey(AutoKey, AutoKeyCompliment) + Output(0, 0))
    else Outcome(ControllerState(GensetOff, 0, load), Output(0, 0))
  }

  /** The controller component: its fields persist from one cycle to the next. */
  class LoadOffsetController {
    const cfg: Config
    var prevGensetState: Int32
    var counter: Int32
    var loadPower: Int32

    function State(): ControllerState
      reads this
    {
      ControllerState(prevGensetState, counter, loadPower)
    }

    constructor(cfg: Config)
      ensures this.cfg == cfg && State() == ControllerState(GensetOff, 0, 0)
    {
      this.cfg := cfg;
      prevGensetState := GensetOff;
      counter := 0;
      loadPower := 0;
    }

    /** calcLoadPower. */
    method CalcLoadPower(r: Readings)
      modifies this
      ensures loadPower == LoadPower(r)
      ensures prevGensetState == old(prevGensetState) && counter == old(counter)
    {
      if r.gridTotalPower.None? || r.genset1Power.None? || r.genset2Power.None? || r.genset3Power.None? {
        loadPower := 0;
      } else {
        loadPower := Add(Add(Add(r.gridTotalPower.value, r.genset1Power.value), r.genset2Power.value), r.genset3Power.value);
      }
    }

    /** run(): one controller cycle. */
    method Run(r: Readings) returns (writes: seq<PanelWrite>)
      modifies this
      ensures Outcome(State(), writes) == Step(cfg, old(State()), r)
    {
      CalcLoadPower(r);
      writes := [];
      var pSetpoint: Int32 := 0;
      var remote := 0;
      var window := InShedWindow(r);
      if window.None? {
        return;
      }
      if window.value {
        if r.gridFrequency.None? {
          return;
        }
        if 45000 < r.gridFrequency.value < 55000 && r.gridTotalPower.Some? {
          if cfg.genSize == 0 {
            return;
          }
          pSetpoint := Div(Mul(cfg.genPercentage, loadPower), cfg.genSize);
          if pSetpoint > 100 || pSetpoint < 0 {
            pSetpoint := 0;
          }
          remote := 1;
          prevGensetState := GensetOn;
          counter := 0;
        }
      } else if prevGensetState == GensetOn {
        var avg := GensetFrequencyAverage(r);
        if avg.None? {
          return;
        }
        if avg.value < 5 {
          prevGensetState := SwitchingOff;
        }
        writes := ControlKey(StopKey, StopKeyCompliment);
      } else if prevGensetState == SwitchingOff {
        writes := ControlKey(AutoKey, AutoKeyCompliment);
        counter := Add(counter, 1);
        if counter > 10 {
          prevGensetState := GensetOff;
          counter := 0;
        }
      } else {
        prevGensetState := GensetOff;
        counter := 0;
      }
      writes := writes + Output(pSetpoint, remote);
    }
  }

  /**
   * The shedding branch is taken exactly when both window ends are present,
   * start < now < end (in seconds) and the hour is before 6 or from 18 on; the
   * test throws exactly when the end is missing, or lies ahead and the start
   * is missing.
   */
  lemma ShedWindowIff(r: Readings)
    ensures InShedWindow(r) == Some(true) <==>
      && r.shedEnd.Some? && r.shedStart.Some?
      && r.shedStart.value < NowSeconds(r) < r.shedEnd.value
      && (r.hour < 6 || r.hour >= 18)
    ensures InShedWindow(r).None? <==> r.shedEnd.None? || (r.shedEnd.value > NowSeconds(r) && r.shedStart.None?)
  {
  }

  /**
   * With a non-negative load, percentage and gen_size and no overflow, the
   * setpoint is the load's percentage share of the genset size in whole
   * percent, or 0 once that share passes 100.
   */
  lemma SetpointIsShare(cfg: Config, load: Int32)
    requires cfg.genSize > 0 && cfg.genPercentage >= 0 && load >= 0
    requires cfg.genPercentage * load <= MaxInt
    ensures Setpoint(cfg, load) == Some(if cfg.genPercentage * load / cfg.genSize > 100 then 0 else cfg.genPercentage * load / cfg.genSize)
  {
    var x := cfg.genPercentage * load;
    ProductNonNegative(cfg.genPercentage, load);
    assert Mul(cfg.genPercentage, load) == x;
    QuotientBounds(x, cfg.genSize);
    var q := x / cfg.genSize;
    assert TruncDiv(x, cfg.genSize) == q;
    assert Div(x, cfg.genSize) == q;
  }

  lemma ProductNonNegative(a: int, b: int)
    requires a >= 0 && b >= 0
    ensures a * b >= 0
  {
  }

  /**
   * Inside the window with the grid frequency strictly between 45 Hz and
   * 55 Hz and the grid total power present, the genset is switched on at the
   * setpoint and the counter is cleared; if the frequency or the power test
   * fails, the state is kept and setpoint 0 with remote 0 is sent.
   */
  lemma WindowCycle(cfg: Config, s: ControllerState, r: Readings)
    requires InShedWindow(r) == Some(true) && r.gridFrequency.Some?
    ensures var o := Step(cfg, s, r);
      if 45000 < r.gridFrequency.value < 55000 && r.gridTotalPower.Some? && cfg.genSize != 0 then
        && o.state == ControllerState(GensetOn, 0, LoadPower(r))
        && o.writes == Output(Setpoint(cfg, LoadPower(r)).value, 1)
      else if 45000 < r.gridFrequency.value < 55000 && r.gridTotalPower.Some? then
        o.state == s.(loadPower := LoadPower(r)) && o.writes == []
      else
        o.state == s.(loadPower := LoadPower(r)) && o.writes == Output(0, 0)
  {
  }

  /**
   * Outside the window a running genset is sent the STOP key every cycle,
   * and moves to switching off only once the genset frequency average is
   * below 5; a missing genset frequency stages nothing.
   */
  lemma StopWhileRunning(cfg: Config, s: ControllerState, r: Readings)
    requires InShedWindow(r) == Some(false) && s.prevGensetState == GensetOn
    ensures var o := Step(cfg, s, r);
      && (GensetFrequencyAverage(r).Some? ==> o.writes == ControlKey(StopKey, StopKeyCompliment) + Output(0, 0))
      && (GensetFrequencyAverage(r).None? ==> o.writes == [] && o.state.prevGensetState == GensetOn)
      && (o.state.prevGensetState == SwitchingOff <==> GensetFrequencyAverage(r).Some? && GensetFrequencyAverage(r).value < 5)
      && o.state.counter == s.counter
  {
  }

  /** Every key a cycle stages is followed by its compliment, the two adding up to 65535. */
  lemma StagedKeysComplemented(cfg: Config, s: ControllerState, r: Readings, i: nat)
    requires i < |Step(cfg, s, r).writes| && Step(cfg, s, r).writes[i].channel == SystemControlKey
    ensures i + 1 < |Step(cfg, s, r).writes|
    ensures Step(cfg, s, r).writes[i + 1].channel == SystemControlKeyCompliment
    ensures Step(cfg, s, r).writes[i].value + Step(cfg, s, r).writes[i + 1].value == 65535
  {
  }

  /**
   * A cycle stages nothing, setpoint 0 with remote 0 (after the STOP or the
   * AUTO key, or alone), or, in the shedding window only, the setpoint with
   * remote 1.
   */
  lemma CycleWrites(cfg: Config, s: ControllerState, r: Readings)
    ensures var o := Step(cfg, s, r);
      || o.writes == []
      || o.writes == Output(0, 0)
      || o.writes == ControlKey(StopKey, StopKeyCompliment) + Output(0, 0)
      || o.writes == ControlKey(AutoKey, AutoKeyCompliment) + Output(0, 0)
      || (InShedWindow(r) == Some(true) && Setpoint(cfg, LoadPower(r)).Some?
          && o.writes == Output(Setpoint(cfg, LoadPower(r)).value, 1))
  {
  }

  /**
   * Any setpoint sent lies in [0, 100], and outside the shedding window the
   * setpoint and the remote switch are only ever sent as 0.
   */
  lemma OutputBounds(cfg: Config, s: ControllerState, r: Readings)
    ensures forall w :: w in Step(cfg, s, r).writes && w.channel == ActivePowerLimit ==> 0 <= w.value <= 100
    ensures InShedWindow(r) != Some(true) ==>
      forall w :: w in Step(cfg, s, r).writes && (w.channel == ActivePowerLimit || w.channel == RemoteControlSource1) ==> w.value == 0
  {
    CycleWrites(cfg, s, r);
    var ws := Step(cfg, s, r).writes;
    if ws != [] && ws != Output(0, 0) && !(InShedWindow(r) == Some(true) && ws == Output(ws[0].value, 1)) {
      var keys := ws[..2];
      assert ws == keys + Output(0, 0);
      assert forall w :: w in keys ==> w.channel == SystemControlKey || w.channel == SystemControlKeyCompliment;
    }
  }

  /** Every cycle keeps the controller among its reachable states: state 0, 1 or 2 and a counter of at most 10. */
  lemma StepPreservesValid(cfg: Config, s: ControllerState, r: Readings)
    requires Valid(s)
    ensures Valid(Step(cfg, s, r).state)
  {
  }

  /** The fields after a run of cycles. */
  function After(cfg: Config, s: ControllerState, rs: seq<Readings>): (t: ControllerState)
    decreases |rs|
  {
    if rs == [] then s else After(cfg, Step(cfg, s, rs[0]).state, rs[1..])
  }

  predicate OutsideWindow(rs: seq<Readings>) {
    forall i :: 0 <= i < |rs| ==> InShedWindow(rs[i]) == Some(false)
  }

  /** Every cycle of the run, started from `s`, sends the AUTO key first. */
  predicate SendsAuto(cfg: Config, s: ControllerState, rs: seq<Readings>)
    decreases |rs|
  {
    rs == [] || (|Step(cfg, s, rs[0]).writes| >= 2 && Step(cfg, s, rs[0]).writes[..2] == ControlKey(AutoKey, AutoKeyCompliment) && SendsAuto(cfg, Step(cfg, s, rs[0]).state, rs[1..]))
  }

  /**
   * Outside the window, a controller switching off with counter c sends the
   * AUTO key on each of the next 11 - c cycles, stays switching off through
   * all but the last of them and is off with a cleared counter after the last:
   * from a fresh switch-off, AUTO is sent on exactly 11 cycles.
   */
  lemma {:induction false} AutoForElevenCycles(cfg: Config, s: ControllerState, rs: seq<Readings>)
    requires s.prevGensetState == SwitchingOff && 0 <= s.counter <= 10
    requires OutsideWindow(rs) && |rs| <= 11 - s.counter
    ensures SendsAuto(cfg, s, rs)
    ensures |rs| < 11 - s.counter ==> After(cfg, s, rs).prevGensetState == SwitchingOff && After(cfg, s, rs).counter == s.counter + |rs|
    ensures |rs| == 11 - s.counter ==> After(cfg, s, rs).prevGensetState == GensetOff && After(cfg, s, rs).counter == 0
    decreases |rs|
  {
    if rs != [] {
      var o := Step(cfg, s, rs[0]);
      assert InShedWindow(rs[0]) == Some(false);
      assert o.writes[..2] == ControlKey(AutoKey, AutoKeyCompliment);
      if s.counter == 10 {
        assert o.state.prevGensetState == GensetOff && o.state.counter == 0;
        assert rs[1..] == [];
      } else {
        assert o.state.prevGensetState == SwitchingOff && o.state.counter == s.counter + 1;
        assert OutsideWindow(rs[1..]) by {
          forall i | 0 <= i < |rs[1..]| ensures InShedWindow(rs[1..][i]) == Some(false) {
            assert rs[1..][i] == rs[i + 1];
          }
        }
        AutoForElevenCycles(cfg, o.state, rs[1..]);
      }
    }
  }

  /** Outside the window an idle controller stays idle with a cleared counter and sends setpoint 0, remote 0. */
  lemma IdleStaysIdle(cfg: Config, s: ControllerState, r: Readings)
    requires InShedWindow(r) == Some(false) && s.prevGensetState == GensetOff
    ensures Step(cfg, s, r) == Outcome(ControllerState(GensetOff, 0, LoadPower(r)), Output(0, 0))
  {
  }
}
