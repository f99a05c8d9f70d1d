/**
 * The DeepSea 8660 sync panel and the DeepSea genset components: each sums
 * its three phase powers into a total once per cycle, before the
 * controllers run, and replaces totals beyond the hard limit of 2000 by 0.
 */
module DeepSea {
  import opened Wrappers
  import opened JavaInt
  import opened GensetController

  /** The event topics a component receives; only the one before the controllers is handled. */
  datatype Topic = CycleBeforeControllers | OtherTopic

  /** StartStop requests of the start/stop interface. */
  datatype StartStop = Start | Stop | Undefined

  const PowerLimit: int := 2000

  /** The hard limit for the total power: a total above 2000 or below -2000 is replaced by 0. */
  function ClampTotal(sum: Int32): (t: Int32)
    ensures -PowerLimit <= t <= PowerLimit
    ensures -PowerLimit <= sum <= PowerLimit ==> t == sum
    ensures !(-PowerLimit <= sum <= PowerLimit) ==> t == 0
  {
    if sum > PowerLimit || sum < -PowerLimit then 0 else sum
  }

  /** L1 + L2 + L3 in Java `int` arithmetic. */
  function PhaseSum(l1: Int32, l2: Int32, l3: Int32): (s: Int32)
    ensures s == Wrap(l1 + l2 + l3)
  {
    AddThree(l1, l2, l3);
    Add(Add(l1, l2), l3)
  }

  predicate AllPresent(l1: Option<Int32>, l2: Option<Int32>, l3: Option<Int32>) {
    l1.Some? && l2.Some? && l3.Some?
  }

  /**
   * DeepSea8660Impl.handleEvent: the value staged for GRID_TOTAL_POWER, or
   * None when nothing is staged (component disabled, another topic, or a
   * phase power missing).
   */
  function SyncPanelHandleEvent(enabled: bool, topic: Topic, l1: Option<Int32>, l2: Option<Int32>, l3: Option<Int32>): (staged: Option<Int32>)
    ensures staged.Some? <==> enabled && topic == CycleBeforeControllers && AllPresent(l1, l2, l3)
    ensures staged.Some? ==> -PowerLimit <= staged.value <= PowerLimit
  {
    if !enabled || topic != CycleBeforeControllers then None
    else if AllPresent(l1, l2, l3) then Some(ClampTotal(PhaseSum(l1.value, l2.value, l3.value)))
    else None
  }

  /**
   * Where an exception leaves the try block of DeepSeaGensetImpl.handleEvent:
   * not at all, before the total has been computed, or while staging it.
   */
  datatype Fault = NoFault | FaultBeforeSum | FaultWhileStaging

  /**
   * DeepSeaGensetImpl.handleEvent: the value staged for GENSET_TOTAL_POWER.
   * The exception handler stages the local total too, which is still 0 when
   * the exception came before the sum and the clamped sum after it.
   */
  function GensetHandleEvent(enabled: bool, topic: Topic, l1: Option<Int32>, l2: Option<Int32>, l3: Option<Int32>, fault: Fault): (staged: Option<Int32>)
    ensures staged.Some? ==> enabled && topic == CycleBeforeControllers
    ensures staged.Some? ==> -PowerLimit <= staged.value <= PowerLimit
  {
    if !enabled || topic != CycleBeforeControllers then None
    else if fault == FaultBeforeSum then Some(0)
    else if AllPresent(l1, l2, l3) then Some(ClampTotal(PhaseSum(l1.value, l2.value, l3.value)))
    else None
  }

  /** DeepSea8660Impl.setStartStop: every branch is empty, so no request stages anything. */
  function SetStartStop(value: StartStop): (writes: seq<PanelWrite>)
    ensures |writes| == 0
  {
    match value
    case Start => []
    case Stop => []
    case Undefined => []
  }

  /**
   * The sync panel stages a total exactly when it is enabled, the topic is
   * the one before the controllers and all three phases are present; the
   * total lies within [-2000, 2000], equals the exact phase sum when that sum
   * does, and is 0 when the exact sum (without overflow) lies beyond it.
   */
  lemma SyncPanelTotal(enabled: bool, topic: Topic, l1: Option<Int32>, l2: Option<Int32>, l3: Option<Int32>)
    ensures var staged := SyncPanelHandleEvent(enabled, topic, l1, l2, l3);
      && (staged.Some? <==> enabled && topic == CycleBeforeControllers && AllPresent(l1, l2, l3))
      && (staged.Some? ==> -PowerLimit <= staged.value <= PowerLimit)
      && (staged.Some? && -PowerLimit <= l1.value + l2.value + l3.value <= PowerLimit ==> staged.value == l1.value + l2.value + l3.value)
      && (staged.Some? && MinInt <= l1.value + l2.value + l3.value <= MaxInt && !(-PowerLimit <= l1.value + l2.value + l3.value <= PowerLimit) ==> staged.value == 0)
  {
  }

  /**
   * Without an exception the genset stages exactly what the sync panel does
   * for the same phases; an exception before the sum stages 0, one while
   * staging stages the clamped total again. Whatever is staged lies within
   * [-2000, 2000].
   */
  lemma GensetTotal(enabled: bool, topic: Topic, l1: Option<Int32>, l2: Option<Int32>, l3: Option<Int32>, fault: Fault)
    ensures fault != FaultBeforeSum ==> GensetHandleEvent(enabled, topic, l1, l2, l3, fault) == SyncPanelHandleEvent(enabled, topic, l1, l2, l3)
    ensures enabled && topic == CycleBeforeControllers && fault == FaultBeforeSum ==> GensetHandleEvent(enabled, topic, l1, l2, l3, fault) == Some(0)
    ensures GensetHandleEvent(enabled, topic, l1, l2, l3, fault).Some? ==> -PowerLimit <= GensetHandleEvent(enabled, topic, l1, l2, l3, fault).value <= PowerLimit
    ensures GensetHandleEvent(enabled, topic, l1, l2, l3, fault).None? <==>
      !enabled || topic != CycleBeforeControllers || (fault != FaultBeforeSum && !AllPresent(l1, l2, l3))
  {
  }
}

/**
 * The Modbus register tables of the DeepSea 8660 sync panel and of the
 * DeepSea genset (defineModbusProtocol).
 */
module DeepSeaRegisters {
  import opened GensetController

  /** FC3 read-registers and FC16 write-registers tasks. */
  datatype Access = Fc3Read | Fc16Write

  datatype Priority = High | Low | Unprioritised

  datatype WordKind = UnsignedWord | SignedDoubleword | UnsignedDoubleword

  /** The sync panel's channels: the ones the controller writes, the grid frequency and the grid phase powers. */
  datatype SyncPanelChannel = Panel(c: PanelChannel) | GridFrequency | GridPower(phase: nat)

  datatype GensetChannel = GensetFrequency | PhaseVoltage(phase: nat) | PhasePower(phase: nat) | GensetTotalPower

  /** A channel mapped at an address with a decimal scale exponent (SCALE_FACTOR_2 is 2), or a dummy register range. */
  datatype Element<C> = Mapped(address: nat, kind: WordKind, channel: C, scale: int) | Dummy(first: nat, last: nat)

  datatype Task<C> = Task(access: Access, start: nat, priority: Priority, elements: seq<Element<C>>)

  /** The registers an element occupies. */
  function Width<C>(e: Element<C>): nat {
    match e
    case Mapped(_, kind, _, _) => if kind == UnsignedWord then 1 else 2
    case Dummy(first, last) => if last >= first then last - first + 1 else 0
  }

  function Address<C>(e: Element<C>): nat {
    if e.Mapped? then e.address else e.first
  }

  /** Each element starts where the previous one ends, the first at `a`. */
  predicate Packed<C>(es: seq<Element<C>>, a: nat)
    decreases |es|
  {
    es == [] || (Address(es[0]) == a && Packed(es[1..], a + Width(es[0])))
  }

  predicate AllPacked<C>(tasks: seq<Task<C>>) {
    forall i :: 0 <= i < |tasks| ==> Packed(tasks[i].elements, tasks[i].start)
  }

  function W(address: nat, c: PanelChannel): Element<SyncPanelChannel> {
    Mapped(address, UnsignedWord, Panel(c), 0)
  }

  /** The sync panel's table. */
  function SyncPanelProtocol(): (p: seq<Task<SyncPanelChannel>>)
    ensures |p| == 9
  {
    [Task(Fc3Read, 35109, High, [W(35109, ActivePowerLimit), Dummy(35110, 35110), W(35111, ReactivePowerLimit), W(35112, BusOrMainsMode)]),
     Task(Fc3Read, 49408, High, [W(49408, RemoteControlSource1)]),
     Task(Fc3Read, 1059, High, [Mapped(1059, UnsignedWord, GridFrequency, 2)]),
     Task(Fc3Read, 1084, High, [Mapped(1084, SignedDoubleword, GridPower(1), -3),
                                Mapped(1086, SignedDoubleword, GridPower(2), -3),
                                Mapped(1088, SignedDoubleword, GridPower(3), -3)]),
     Task(Fc16Write, 35109, Unprioritised, [W(35109, ActivePowerLimit)]),
     Task(Fc16Write, 35111, Unprioritised, [W(35111, ReactivePowerLimit)]),
     Task(Fc16Write, 35112, Unprioritised, [W(35112, BusOrMainsMode)]),
     Task(Fc16Write, 49408, Unprioritised, [W(49408, RemoteControlSource1)]),
     Task(Fc16Write, 4104, Unprioritised, [W(4104, SystemControlKey), W(4105, SystemControlKeyCompliment)])]
  }

  /** The genset's table; the total power is computed, its register 1356 is not read. */
  function GensetProtocol(): (p: seq<Task<GensetChannel>>)
    ensures |p| == 3
    ensures forall i :: 0 <= i < |p| ==> p[i].access == Fc3Read
  {
    [Task(Fc3Read, 1031, High, [Mapped(1031, UnsignedWord, GensetFrequency, 2)]),
     Task(Fc3Read, 1032, Low, [Mapped(1032, UnsignedDoubleword, PhaseVoltage(1), -1),
                               Mapped(1034, UnsignedDoubleword, PhaseVoltage(2), -1),
                               Mapped(1036, UnsignedDoubleword, PhaseVoltage(3), -1)]),
     Task(Fc3Read, 1052, High, [Mapped(1052, SignedDoubleword, PhasePower(1), -3),
                                Mapped(1054, SignedDoubleword, PhasePower(2), -3),
                                Mapped(1056, SignedDoubleword, PhasePower(3), -3)])]
  }

  /** The register each controller output is written to. */
  function WriteAddress(c: PanelChannel): nat {
    match c
    case ActivePowerLimit => 35109
    case ReactivePowerLimit => 35111
    case BusOrMainsMode => 35112
    case RemoteControlSource1 => 49408
    case SystemControlKey => 4104
    case SystemControlKeyCompliment => 4105
  }

  /** Channel `c` is mapped at `address` in some task of the given access. */
  predicate MappedAt<C(==)>(tasks: seq<Task<C>>, access: Access, c: C, address: nat) {
    exists i, j :: 0 <= i < |tasks| && 0 <= j < |tasks[i].elements| &&
      tasks[i].access == access && tasks[i].elements[j].Mapped? &&
      tasks[i].elements[j].channel == c && tasks[i].elements[j].address == address
  }

  /** Every task of both tables lists its registers without gaps from its start address. */
  lemma TablesPacked()
    ensures AllPacked(SyncPanelProtocol())
    ensures AllPacked(GensetProtocol())
  {
    var p := SyncPanelProtocol();
    assert Packed(p[0].elements[3..], 35112);
    assert Packed(p[0].elements[2..], 35111);
    assert Packed(p[0].elements[1..], 35110);
    assert Packed(p[3].elements[2..], 1088);
    assert Packed(p[3].elements[1..], 1086);
    assert Packed(p[8].elements[1..], 4105);
    var g := GensetProtocol();
    assert Packed(g[1].elements[2..], 1036);
    assert Packed(g[1].elements[1..], 1034);
    assert Packed(g[2].elements[2..], 1056);
    assert Packed(g[2].elements[1..], 1054);
  }

  /**
   * Every output the load-offset controller stages has an FC16 register on
   * the sync panel, and the four limits are read back from the register they
   * are written to.
   */
  lemma ControllerOutputsReachPanel(c: PanelChannel)
    ensures MappedAt(SyncPanelProtocol(), Fc16Write, Panel(c), WriteAddress(c))
    ensures !c.SystemControlKey? && !c.SystemControlKeyCompliment? ==> MappedAt(SyncPanelProtocol(), Fc3Read, Panel(c), WriteAddress(c))
  {
    var p := SyncPanelProtocol();
    match c
    case ActivePowerLimit =>
      assert p[4].elements[0] == W(35109, c);
      assert p[0].elements[0] == W(35109, c);
    case ReactivePowerLimit =>
      assert p[5].elements[0] == W(35111, c);
      assert p[0].elements[2] == W(35111, c);
    case BusOrMainsMode =>
      assert p[6].elements[0] == W(35112, c);
      assert p[0].elements[3] == W(35112, c);
    case RemoteControlSource1 =>
      assert p[7].elements[0] == W(49408, c);
      assert p[1].elements[0] == W(49408, c);
    case SystemControlKey =>
      assert p[8].elements[0] == W(4104, c);
    case SystemControlKeyCompliment =>
      assert p[8].elements[1] == W(4105, c);
  }

  predicate IsKeyChannel(c: SyncPanelChannel) {
    c == Panel(SystemControlKey) || c == Panel(SystemControlKeyCompliment)
  }

  /**
   * The control key and its compliment are written by one FC16 task at 4104,
   * so the panel receives both in a single transaction; no other task
   * carries either.
   */
  lemma ControlKeyBlock()
    ensures SyncPanelProtocol()[8] == Task(Fc16Write, 4104, Unprioritised, [W(4104, SystemControlKey), W(4105, SystemControlKeyCompliment)])
    ensures forall i, j | 0 <= i < |SyncPanelProtocol()| && 0 <= j < |SyncPanelProtocol()[i].elements| ::
      SyncPanelProtocol()[i].elements[j].Mapped? && IsKeyChannel(SyncPanelProtocol()[i].elements[j].channel) ==> i == 8
  {
    var p := SyncPanelProtocol();
    forall i, j | 0 <= i < |p| && 0 <= j < |p[i].elements| && p[i].elements[j].Mapped? && IsKeyChannel(p[i].elements[j].channel)
      ensures i == 8
    {
      KeyOnlyInBlock(i, j);
    }
  }

  lemma KeyOnlyInBlock(i: nat, j: nat)
    requires i < |SyncPanelProtocol()| && j < |SyncPanelProtocol()[i].elements|
    requires SyncPanelProtocol()[i].elements[j].Mapped? && IsKeyChannel(SyncPanelProtocol()[i].elements[j].channel)
    ensures i == 8
  {
  }

  /** The read task at 35109 spans 35109..35112 with 35110 a dummy register. */
  lemma LimitsReadBlock()
    ensures var t := SyncPanelProtocol()[0];
      && t.access == Fc3Read && t.start == 35109
      && Packed(t.elements, 35109)
      && (forall e :: e in t.elements && e.Mapped? ==> e.address != 35110)
      && Dummy(35110, 35110) in t.elements
  {
    TablesPacked();
  }

  /**
   * The genset reads its frequency at 1031 (scaled by 10^2) and its phase
   * powers as signed doublewords at 1052, 1054 and 1056 (scaled by 10^-3);
   * its total power is never read from the device.
   */
  lemma GensetRegisters()
    ensures MappedAt(GensetProtocol(), Fc3Read, GensetFrequency, 1031)
    ensures forall k :: 1 <= k <= 3 ==> MappedAt(GensetProtocol(), Fc3Read, PhasePower(k), 1050 + 2 * k)
    ensures forall i, j | 0 <= i < |GensetProtocol()| && 0 <= j < |GensetProtocol()[i].elements| ::
      GensetElementFacts(GensetProtocol()[i].elements[j])
  {
    var g := GensetProtocol();
    assert g[0].elements[0].channel == GensetFrequency;
    forall k | 1 <= k <= 3 ensures MappedAt(g, Fc3Read, PhasePower(k), 1050 + 2 * k) {
      assert g[2].elements[k - 1].channel == PhasePower(k);
    }
    forall i, j | 0 <= i < |g| && 0 <= j < |g[i].elements| ensures GensetElementFacts(g[i].elements[j]) {
      assert i == 0 || i == 1 || i == 2;
    }
  }

  /** A phase power is a signed doubleword at 1050 + 2 * phase scaled by 10^-3, and no element maps the total power. */
  predicate GensetElementFacts(e: Element<GensetChannel>) {
    e.Mapped?
    && (e.channel.PhasePower? ==> e.kind == SignedDoubleword && e.scale == -3 && e.address == 1050 + 2 * e.channel.phase)
    && e.channel != GensetTotalPower
  }
}
