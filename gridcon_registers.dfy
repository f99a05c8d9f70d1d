/**
 * The Modbus register table of the Gridcon driver (defineModbusProtocol):
 * which channel sits at which holding-register address, grouped into the
 * read (FC3) and write (FC16) tasks the bridge executes. The table depends on
 * the configured inverter count n: IPU k <= n occupies the k-th 32-register
 * slot of the status, control and mirror areas, and the DC/DC stage takes
 * slot n + 1.
 */
module GridconRegisters {
  import opened GridconTypes
  import CcuStatus

  datatype Access = Fc3Read | Fc16Write

  /** How a doubleword is interpreted: UnsignedDoublewordElement or FloatDoublewordElement (both LSW first). */
  datatype Encoding = UnsignedEncoding | FloatEncoding

  /** One bit of a BitsWordElement and the boolean channel it carries. */
  datatype Bit = Bit(index: nat, channel: Channel)

  datatype Element =
    | Word(address: nat, channel: Channel)
    | Doubleword(address: nat, channel: Channel, enc: Encoding)
    | BitsWord(address: nat, bits: seq<Bit>)
    | DummyRegister(address: nat)

  /** A read or write task: one contiguous block of registers from `start`. */
  datatype Task = Task(access: Access, start: nat, elements: seq<Element>)

  /** The number of registers an element occupies. */
  function Width(e: Element): nat {
    if e.Doubleword? then 2 else 1
  }

  /** The channels an element maps. */
  function ElementChannels(e: Element): set<Channel> {
    match e
    case Word(_, c) => {c}
    case Doubleword(_, c, _) => {c}
    case BitsWord(_, bits) => set b | b in bits :: b.channel
    case DummyRegister(_) => {}
  }

  /** The elements follow one another without gaps, the first at `start`. */
  predicate Packed(es: seq<Element>, start: nat)
    decreases |es|
  {
    es == [] || (es[0].address == start && Packed(es[1..], start + Width(es[0])))
  }

  /** The number of registers a sequence of elements occupies. */
  function Size(es: seq<Element>): nat
    decreases |es|
  {
    if es == [] then 0 else Width(es[0]) + Size(es[1..])
  }

  /** Consecutive doubleword elements for `cs`, from `start`. */
  function Doublewords(start: nat, cs: seq<Channel>, enc: Encoding): (es: seq<Element>)
    ensures |es| == |cs|
  {
    seq(|cs|, i requires 0 <= i < |cs| => Doubleword(start + 2 * i, cs[i], enc))
  }

  lemma {:induction false} DoublewordsPacked(start: nat, cs: seq<Channel>, enc: Encoding)
    ensures Packed(Doublewords(start, cs, enc), start)
    ensures Size(Doublewords(start, cs, enc)) == 2 * |cs|
    decreases |cs|
  {
    if cs != [] {
      assert Doublewords(start, cs, enc)[1..] == Doublewords(start + 2, cs[1..], enc);
      DoublewordsPacked(start + 2, cs[1..], enc);
    }
  }

  lemma {:induction false} PackedAppend(a: seq<Element>, b: seq<Element>, start: nat)
    requires Packed(a, start) && Packed(b, start + Size(a))
    ensures Packed(a + b, start)
    ensures Size(a + b) == Size(a) + Size(b)
    decreases |a|
  {
    if a != [] {
      assert (a + b)[1..] == a[1..] + b;
      PackedAppend(a[1..], b, start + Width(a[0]));
    } else {
      assert a + b == b;
    }
  }

  // ---------------------------------------------------------------------
  // The fixed tasks
  // ---------------------------------------------------------------------

  /** Bits 0..12 of register 32528 carry the CCU state flags in priority order. */
  function CcuStateBits(): (bits: seq<Bit>)
    ensures |bits| == CcuStatus.FlagCount
  {
    seq(CcuStatus.FlagCount, i requires 0 <= i < CcuStatus.FlagCount => Bit(i, CcuStateFlag(CcuStatus.Priority[i])))
  }

  function CcuMeasurements(): seq<Channel> {
    [Ccu(VoltageU12), Ccu(VoltageU23), Ccu(VoltageU31), Ccu(CurrentIL1), Ccu(CurrentIL2), Ccu(CurrentIL3),
     Ccu(PowerP), Ccu(PowerQ), Ccu(Frequency)]
  }

  function CcuStateTask(): Task {
    Task(Fc3Read, 32528,
      [BitsWord(32528, CcuStateBits()), DummyRegister(32529), Doubleword(32530, CcuErrorCode, UnsignedEncoding)]
      + Doublewords(32532, CcuMeasurements(), FloatEncoding))
  }

  /** The DISABLE_IPU bits of the first command word; DISABLE_IPU_1 sits at `ipu1Bit`. */
  function DisableBits(ipu1Bit: nat): seq<Bit> {
    [Bit(12, Command(DisableIpu(4))), Bit(13, Command(DisableIpu(3))), Bit(14, Command(DisableIpu(2))),
     Bit(ipu1Bit, Command(DisableIpu(1)))]
  }

  /** The second command word. */
  function ControlWordBits(): seq<Bit> {
    [Bit(0, Command(Play)), Bit(1, Command(ReadyCommand)), Bit(2, Command(Acknowledge)), Bit(3, Command(Stop)),
     Bit(4, Command(BlackstartApproval)), Bit(5, Command(SyncApproval)),
     Bit(6, Command(ActivateShortCircuitHandling)), Bit(7, Command(ModeSelection)),
     Bit(8, Command(TriggerSia)), Bit(9, Command(ActivateHarmonicCompensation)),
     Bit(10, Command(SdCardParameterSet(1))), Bit(11, Command(SdCardParameterSet(2))),
     Bit(12, Command(SdCardParameterSet(3))), Bit(13, Command(SdCardParameterSet(4)))]
  }

  function CommandParameters(): seq<Channel> {
    [CommandU0, CommandF0, CommandQRef, CommandPRef]
  }

  function CommandTask(): (t: Task)
    ensures |t.elements| == 9 && t.elements[0] == BitsWord(32560, DisableBits(15))
  {
    Task(Fc16Write, 32560,
      CommandHead(32560, 15)
      + Doublewords(32564, CommandParameters(), FloatEncoding)
      + Doublewords(32572, [TimeSyncDate, TimeSyncTime], UnsignedEncoding))
  }

  /** The read-back of the command block; its DISABLE_IPU_1 bit is 16, not 15. */
  function CommandMirrorTask(): (t: Task)
    ensures |t.elements| == 7 && t.elements[0] == BitsWord(32880, DisableBits(16))
  {
    Task(Fc3Read, 32880,
      CommandHead(32880, 16)
      + Doublewords(32884, CommandParameters(), FloatEncoding))
  }

  function ControlParameters(): (cs: seq<Channel>)
    ensures |cs| == 16
  {
    [Control(UQDroopMain), Control(UQDroopT1Main), Control(FPDroopMain), Control(FPDroopT1Main),
     Control(QUDroopMain), Control(QUDeadBand), Control(QLimit), Control(PFDroopMain),
     Control(PFDeadBand), Control(PUDroop), Control(PUDeadBand), Control(PUMaxCharge),
     Control(PUMaxDischarge), Control(PControlMode), Control(PControlLimTwo), Control(PControlLimOne)]
  }

  function ControlTask(): Task {
    Task(Fc16Write, 32592, Doublewords(32592, ControlParameters(), FloatEncoding))
  }

  /** The read-back of the first ten control parameters. */
  function ControlMirrorTask(): Task {
    Task(Fc3Read, 32912, Doublewords(32912, ControlParameters()[..10], FloatEncoding))
  }

  // ---------------------------------------------------------------------
  // IPU and DC/DC blocks
  // ---------------------------------------------------------------------

  function StatusChannels(u: Unit, fs: seq<StatusField>): (cs: seq<Channel>)
    ensures |cs| == |fs|
  {
    seq(|fs|, i requires 0 <= i < |fs| => Status(u, fs[i]))
  }

  /** The 32-register status block of an IPU or of the DC/DC stage. */
  function StatusElements(u: Unit, a: nat): seq<Element> {
    [Word(a, Status(u, StateMachineStatus)), Word(a + 1, Status(u, Mcu))]
    + Doublewords(a + 2, StatusChannels(u, [FilterCurrent, DcLinkPositiveVoltage, DcLinkNegativeVoltage,
                                            DcLinkCurrent, DcLinkActivePower, DcLinkUtilization]), FloatEncoding)
    + Doublewords(a + 14, StatusChannels(u, [FanSpeedMax, FanSpeedMin]), UnsignedEncoding)
    + Doublewords(a + 18, StatusChannels(u, [TemperatureIgbtMax, TemperatureMcuBoard, TemperatureGridChoke,
                                             TemperatureInverterChoke, Reserve1, Reserve2, Reserve3]), FloatEncoding)
  }

  function IpuControlChannels(k: nat): (cs: seq<Channel>)
    ensures |cs| == 8
  {
    [IpuControl(k, DcVoltageSetpoint), IpuControl(k, DcCurrentSetpoint), IpuControl(k, U0OffsetToCcuValue),
     IpuControl(k, F0OffsetToCcuValue), IpuControl(k, QRefOffsetToCcuValue), IpuControl(k, PRefOffsetToCcuValue),
     IpuControl(k, PMaxDischarge), IpuControl(k, PMaxCharge)]
  }

  function IpuStatusTask(k: nat): Task
    requires k >= 1
  {
    Task(Fc3Read, 33168 + 32 * (k - 1), StatusElements(Ipu(k), 33168 + 32 * (k - 1)))
  }

  function IpuControlTask(k: nat): Task
    requires k >= 1
  {
    Task(Fc16Write, 32624 + 32 * (k - 1), Doublewords(32624 + 32 * (k - 1), IpuControlChannels(k), FloatEncoding))
  }

  /** The read-back of the six offsets and setpoints of IPU k (not its power limits). */
  function IpuMirrorTask(k: nat): Task
    requires k >= 1
  {
    Task(Fc3Read, 32944 + 32 * (k - 1), Doublewords(32944 + 32 * (k - 1), IpuControlChannels(k)[..6], FloatEncoding))
  }

  function IpuTasks(k: nat): seq<Task>
    requires k >= 1
  {
    [IpuStatusTask(k), IpuControlTask(k), IpuMirrorTask(k)]
  }

  /** The start addresses of the DC/DC blocks. */
  datatype DcdcStarts = DcdcStarts(control: nat, controlMirror: nat, state: nat, measurements: nat)

  /** The DC/DC start addresses as the inverter-count switch sets them. */
  function DcdcAddresses(n: InverterCount): DcdcStarts {
    if n == 1 then DcdcStarts(32656, 32976, 33200, 33520)
    else if n == 2 then DcdcStarts(32688, 33008, 33232, 33552)
    else DcdcStarts(32720, 33040, 33264, 33584)
  }

  function DcdcControlChannels(): (cs: seq<Channel>)
    ensures |cs| == 8
  {
    [DcdcControl(DcdcVoltageSetpoint), DcdcControl(WeightString(StringA)), DcdcControl(WeightString(StringB)),
     DcdcControl(WeightString(StringC)), DcdcControl(IRefString(StringA)), DcdcControl(IRefString(StringB)),
     DcdcControl(IRefString(StringC)), DcdcControl(StringControlMode)]
  }

  function DcdcMeasurementChannels(): (cs: seq<Channel>)
    ensures |cs| == 16
  {
    [DcdcMeasured(VoltageString(StringA)), DcdcMeasured(VoltageString(StringB)), DcdcMeasured(VoltageString(StringC)),
     DcdcMeasured(CurrentString(StringA)), DcdcMeasured(CurrentString(StringB)), DcdcMeasured(CurrentString(StringC)),
     DcdcMeasured(PowerString(StringA)), DcdcMeasured(PowerString(StringB)), DcdcMeasured(PowerString(StringC)),
     DcdcMeasured(UtilizationString(StringA)), DcdcMeasured(UtilizationString(StringB)),
     DcdcMeasured(UtilizationString(StringC)), DcdcMeasured(AccumulatedSumDcCurrent),
     DcdcMeasured(AccumulatedDcUtilization), DcdcMeasured(MeasurementReserve1), DcdcMeasured(MeasurementReserve2)]
  }

  function DcdcControlTask(s: DcdcStarts): Task {
    Task(Fc16Write, s.control, Doublewords(s.control, DcdcControlChannels(), FloatEncoding))
  }

  function DcdcMirrorTask(s: DcdcStarts): Task {
    Task(Fc3Read, s.controlMirror, Doublewords(s.controlMirror, DcdcControlChannels(), FloatEncoding))
  }

  function DcdcStateTask(s: DcdcStarts): Task {
    Task(Fc3Read, s.state, StatusElements(Dcdc, s.state))
  }

  function DcdcMeasurementTask(s: DcdcStarts): Task {
    Task(Fc3Read, s.measurements, Doublewords(s.measurements, DcdcMeasurementChannels(), FloatEncoding))
  }

  function DcdcTasks(s: DcdcStarts): seq<Task> {
    [DcdcControlTask(s), DcdcMirrorTask(s), DcdcStateTask(s), DcdcMeasurementTask(s)]
  }

  function BaseTasks(): seq<Task> {
    [CcuStateTask(), CommandTask(), CommandMirrorTask(), ControlTask(), ControlMirrorTask()]
  }

  /** The IPU tasks, added for IPU 1, 2 and 3 when the inverter count exceeds 0, 1 and 2. */
  function IpuPart(n: InverterCount): seq<Task> {
    (if n > 0 then IpuTasks(1) else [])
    + (if n > 1 then IpuTasks(2) else [])
    + (if n > 2 then IpuTasks(3) else [])
  }

  /** defineModbusProtocol for inverter count n. */
  function Protocol(n: InverterCount): (p: seq<Task>)
    ensures |p| == 9 + 3 * n
    ensures p[..5] == BaseTasks()
  {
    var tasks := BaseTasks() + IpuPart(n) + DcdcTasks(DcdcAddresses(n));
    assert tasks[..5] == BaseTasks();
    tasks
  }

  /** The IPU tasks of IPU k sit at positions 5 + 3(k - 1) .. 7 + 3(k - 1) of Protocol(n). */
  lemma IpuTasksAt(n: InverterCount, k: nat)
    requires 1 <= k <= n
    ensures 7 + 3 * (k - 1) < |Protocol(n)|
    ensures Protocol(n)[5 + 3 * (k - 1)] == IpuStatusTask(k)
    ensures Protocol(n)[6 + 3 * (k - 1)] == IpuControlTask(k)
    ensures Protocol(n)[7 + 3 * (k - 1)] == IpuMirrorTask(k)
  {
    IpuPartIndex(n, k);
    var base, ipus, dcdc := BaseTasks(), IpuPart(n), DcdcTasks(DcdcAddresses(n));
    assert |base| == 5;
    assert Protocol(n) == base + ipus + dcdc;
  }

  /** The fixed tasks are the first five of Protocol(n). */
  lemma BaseTasksAt(n: InverterCount)
    ensures |Protocol(n)| >= 5 && Protocol(n)[..5] == BaseTasks()
  {
    var base, ipus, dcdc := BaseTasks(), IpuPart(n), DcdcTasks(DcdcAddresses(n));
    assert |base| == 5;
    assert Protocol(n) == base + (ipus + dcdc);
  }

  /** The DC/DC tasks are the last four of Protocol(n). */
  lemma DcdcTasksAt(n: InverterCount)
    ensures |Protocol(n)| == 9 + 3 * n
    ensures Protocol(n)[5 + 3 * n] == DcdcControlTask(DcdcAddresses(n))
    ensures Protocol(n)[6 + 3 * n] == DcdcMirrorTask(DcdcAddresses(n))
    ensures Protocol(n)[7 + 3 * n] == DcdcStateTask(DcdcAddresses(n))
    ensures Protocol(n)[8 + 3 * n] == DcdcMeasurementTask(DcdcAddresses(n))
  {
    var base, ipus, dcdc := BaseTasks(), IpuPart(n), DcdcTasks(DcdcAddresses(n));
    assert |base| == 5 && |ipus| == 3 * n && |dcdc| == 4;
    assert Protocol(n) == base + ipus + dcdc;
  }

  /** A task of Protocol(n) is a fixed task, a task of IPU 1..n, or a DC/DC task. */
  lemma ProtocolMembers(n: InverterCount, t: Task)
    requires t in Protocol(n)
    ensures t in BaseTasks() || t in DcdcTasks(DcdcAddresses(n)) || exists k :: 1 <= k <= n && t in IpuTasks(k)
  {
    if t !in BaseTasks() && t !in DcdcTasks(DcdcAddresses(n)) {
      assert t in IpuPart(n);
      if n > 0 && t in IpuTasks(1) {
      } else if n > 1 && t in IpuTasks(2) {
      } else {
        assert t in IpuTasks(3);
      }
    }
  }

  /** The element at position j of task i of `tasks` is located where it says. */
  lemma LocatedAt(tasks: seq<Task>, i: nat, j: nat)
    requires i < |tasks| && j < |tasks[i].elements|
    requires tasks[i].elements[j].Word? || tasks[i].elements[j].Doubleword?
    ensures Located(tasks, tasks[i].access, tasks[i].elements[j].channel, tasks[i].elements[j].address)
    decreases i
  {
    var t := tasks[i];
    if i == 0 {
      assert t.elements[j] in t.elements;
      assert LocatedIn(tasks[0], t.access, t.elements[j].channel, t.elements[j].address);
    } else {
      assert tasks[1..][i - 1] == t;
      LocatedAt(tasks[1..], i - 1, j);
    }
  }

  // ---------------------------------------------------------------------
  // Layout properties
  // ---------------------------------------------------------------------

  /** Channel `c` is mapped at `addr` by a task of kind `access`. */
  predicate Located(tasks: seq<Task>, access: Access, c: Channel, addr: nat)
    decreases |tasks|
  {
    tasks != [] && (LocatedIn(tasks[0], access, c, addr) || Located(tasks[1..], access, c, addr))
  }

  predicate LocatedIn(t: Task, access: Access, c: Channel, addr: nat) {
    t.access == access && exists e :: e in t.elements && (e.Word? || e.Doubleword?) && e.channel == c && e.address == addr
  }

  lemma IpuPartIndex(n: InverterCount, k: nat)
    requires 1 <= k <= n
    ensures 3 * k <= |IpuPart(n)|
    ensures IpuPart(n)[3 * (k - 1)] == IpuStatusTask(k)
    ensures IpuPart(n)[3 * (k - 1) + 1] == IpuControlTask(k)
    ensures IpuPart(n)[3 * (k - 1) + 2] == IpuMirrorTask(k)
  {
    if n == 1 {
      assert IpuPart(n) == IpuTasks(1);
    } else if n == 2 {
      assert IpuPart(n) == IpuTasks(1) + IpuTasks(2);
    } else {
      assert IpuPart(n) == IpuTasks(1) + IpuTasks(2) + IpuTasks(3);
    }
  }

  /**
   * The DC/DC stage sits in the IPU slot after the last configured IPU: the
   * constants of the inverter-count switch follow the 32-register stride.
   */
  lemma DcdcFollowsIpus(n: InverterCount)
    ensures DcdcAddresses(n) == DcdcStarts(32624 + 32 * n, 32944 + 32 * n, 33168 + 32 * n, 33488 + 32 * n)
  {
  }

  /**
   * IPU k <= n is polled at 33168 + 32(k - 1) and controlled at
   * 32624 + 32(k - 1), its power limits in the last two doublewords.
   */
  lemma IpuAddresses(n: InverterCount, k: nat)
    requires 1 <= k <= n
    ensures Located(Protocol(n), Fc3Read, Status(Ipu(k), StateMachineStatus), 33168 + 32 * (k - 1))
    ensures Located(Protocol(n), Fc16Write, IpuControl(k, DcVoltageSetpoint), 32624 + 32 * (k - 1))
    ensures Located(Protocol(n), Fc16Write, IpuControl(k, PMaxDischarge), 32636 + 32 * (k - 1))
    ensures Located(Protocol(n), Fc16Write, IpuControl(k, PMaxCharge), 32638 + 32 * (k - 1))
  {
    IpuTasksAt(n, k);
    var i := 5 + 3 * (k - 1);
    StatusHead(Ipu(k), 33168 + 32 * (k - 1));
    LocatedAt(Protocol(n), i, 0);
    IpuControlElements(k);
    LocatedAt(Protocol(n), i + 1, 0);
    LocatedAt(Protocol(n), i + 1, 6);
    LocatedAt(Protocol(n), i + 1, 7);
  }

  lemma StatusHead(u: Unit, a: nat)
    ensures |StatusElements(u, a)| == 17 && StatusElements(u, a)[0] == Word(a, Status(u, StateMachineStatus))
  {
  }

  lemma IpuControlElements(k: nat)
    requires k >= 1
    ensures var es := IpuControlTask(k).elements; var a := 32624 + 32 * (k - 1);
      && |es| == 8
      && es[0] == Doubleword(a, IpuControl(k, DcVoltageSetpoint), FloatEncoding)
      && es[6] == Doubleword(a + 12, IpuControl(k, PMaxDischarge), FloatEncoding)
      && es[7] == Doubleword(a + 14, IpuControl(k, PMaxCharge), FloatEncoding)
  {
  }

  /** The DC/DC control, status and measurement blocks start at 32624 + 32n, 33168 + 32n and 33488 + 32n. */
  lemma DcdcAddressesInProtocol(n: InverterCount)
    ensures Located(Protocol(n), Fc16Write, DcdcControl(DcdcVoltageSetpoint), 32624 + 32 * n)
    ensures Located(Protocol(n), Fc3Read, Status(Dcdc, StateMachineStatus), 33168 + 32 * n)
    ensures Located(Protocol(n), Fc3Read, DcdcMeasured(VoltageString(StringA)), 33488 + 32 * n)
  {
    var s := DcdcAddresses(n);
    DcdcTasksAt(n);
    DcdcFollowsIpus(n);
    var i := 5 + 3 * n;
    assert DcdcControlTask(s).elements[0] == Doubleword(s.control, DcdcControl(DcdcVoltageSetpoint), FloatEncoding);
    LocatedAt(Protocol(n), i, 0);
    StatusHead(Dcdc, s.state);
    LocatedAt(Protocol(n), i + 2, 0);
    assert DcdcMeasurementTask(s).elements[0] == Doubleword(s.measurements, DcdcMeasured(VoltageString(StringA)), FloatEncoding);
    LocatedAt(Protocol(n), i + 3, 0);
  }

  /** A channel that belongs to IPU k. */
  predicate OfIpu(c: Channel, k: nat) {
    (c.Status? && c.unit == Ipu(k)) || (c.IpuControl? && c.k == k)
  }

  /** No task of Protocol(n) maps a channel of an IPU above n. */
  lemma UnconfiguredIpusAbsent(n: InverterCount, k: nat)
    requires k > n
    ensures forall t, e, c :: t in Protocol(n) && e in t.elements && c in ElementChannels(e) ==> !OfIpu(c, k)
  {
    forall t, e, c | t in Protocol(n) && e in t.elements && c in ElementChannels(e)
      ensures !OfIpu(c, k)
    {
      ChannelsOfTask(n, t, e, c);
    }
  }

  /** Every channel of Protocol(n) that belongs to an IPU belongs to one of IPUs 1..n. */
  lemma ChannelsOfTask(n: InverterCount, t: Task, e: Element, c: Channel)
    requires t in Protocol(n) && e in t.elements && c in ElementChannels(e)
    ensures c.Status? && c.unit.Ipu? ==> 1 <= c.unit.k <= n
    ensures c.IpuControl? ==> 1 <= c.k <= n
  {
    var s := DcdcAddresses(n);
    ProtocolMembers(n, t);
    if t in BaseTasks() {
      BaseChannels(t, e, c);
    } else if t in DcdcTasks(s) {
      DcdcChannels(s, t, e, c);
    } else {
      var k :| 1 <= k <= n && t in IpuTasks(k);
      IpuChannels(k, t, e, c);
    }
  }

  lemma DoublewordsChannels(start: nat, cs: seq<Channel>, enc: Encoding, e: Element)
    requires e in Doublewords(start, cs, enc)
    ensures ElementChannels(e) == {e.channel} && e.channel in cs
  {
    var i :| 0 <= i < |cs| && Doublewords(start, cs, enc)[i] == e;
  }

  lemma BaseChannels(t: Task, e: Element, c: Channel)
    requires t in BaseTasks() && e in t.elements && c in ElementChannels(e)
    ensures !c.Status? && !c.IpuControl?
  {
    if t == CcuStateTask() {
      CcuStateChannels(e, c);
    } else if t == CommandTask() {
      CommandChannels(e, c);
    } else if t == CommandMirrorTask() {
      CommandMirrorChannels(e, c);
    } else if t == ControlTask() {
      DoublewordsChannels(32592, ControlParameters(), FloatEncoding, e);
      ControlParametersKind();
    } else {
      DoublewordsChannels(32912, ControlParameters()[..10], FloatEncoding, e);
      ControlParametersKind();
      var i :| 0 <= i < 10 && ControlParameters()[..10][i] == e.channel;
      assert ControlParameters()[i] in ControlParameters();
    }
  }

  lemma CcuStateChannels(e: Element, c: Channel)
    requires e in CcuStateTask().elements && c in ElementChannels(e)
    ensures !c.Status? && !c.IpuControl?
  {
    var head := [BitsWord(32528, CcuStateBits()), DummyRegister(32529), Doubleword(32530, CcuErrorCode, UnsignedEncoding)];
    if e in head {
      if e == head[0] {
        var b :| b in CcuStateBits() && c == b.channel;
      }
    } else {
      DoublewordsChannels(32532, CcuMeasurements(), FloatEncoding, e);
    }
  }

  lemma CommandChannels(e: Element, c: Channel)
    requires e in CommandTask().elements && c in ElementChannels(e)
    ensures !c.Status? && !c.IpuControl?
  {
    var head := CommandHead(32560, 15);
    var params := Doublewords(32564, CommandParameters(), FloatEncoding);
    var time := Doublewords(32572, [TimeSyncDate, TimeSyncTime], UnsignedEncoding);
    assert CommandTask().elements == head + params + time;
    if e in params {
      DoublewordsChannels(32564, CommandParameters(), FloatEncoding, e);
    } else if e in time {
      DoublewordsChannels(32572, [TimeSyncDate, TimeSyncTime], UnsignedEncoding, e);
    } else {
      CommandHeadChannels(32560, 15, e, c);
    }
  }

  lemma CommandMirrorChannels(e: Element, c: Channel)
    requires e in CommandMirrorTask().elements && c in ElementChannels(e)
    ensures !c.Status? && !c.IpuControl?
  {
    var head := CommandHead(32880, 16);
    var params := Doublewords(32884, CommandParameters(), FloatEncoding);
    assert CommandMirrorTask().elements == head + params;
    if e in params {
      DoublewordsChannels(32884, CommandParameters(), FloatEncoding, e);
    } else {
      CommandHeadChannels(32880, 16, e, c);
    }
  }

  /** The first three elements of the command block and of its read-back. */
  function CommandHead(start: nat, ipu1Bit: nat): seq<Element> {
    [BitsWord(start, DisableBits(ipu1Bit)), BitsWord(start + 1, ControlWordBits()),
     Doubleword(start + 2, CommandErrorCodeFeedback, UnsignedEncoding)]
  }

  /** The command words and the error feedback hold command channels only. */
  lemma CommandHeadChannels(start: nat, ipu1Bit: nat, e: Element, c: Channel)
    requires e in CommandHead(start, ipu1Bit) && c in ElementChannels(e)
    ensures !c.Status? && !c.IpuControl?
  {
    var head := CommandHead(start, ipu1Bit);
    if e == head[0] {
      var b :| b in DisableBits(ipu1Bit) && c == b.channel;
    } else if e == head[1] {
      var b :| b in ControlWordBits() && c == b.channel;
    }
  }

  lemma DcdcChannels(s: DcdcStarts, t: Task, e: Element, c: Channel)
    requires t in DcdcTasks(s) && e in t.elements && c in ElementChannels(e)
    ensures !c.IpuControl? && (c.Status? ==> c.unit == Dcdc)
  {
    if t == DcdcControlTask(s) {
      DoublewordsChannels(s.control, DcdcControlChannels(), FloatEncoding, e);
      DcdcControlChannelsKind();
    } else if t == DcdcMirrorTask(s) {
      DoublewordsChannels(s.controlMirror, DcdcControlChannels(), FloatEncoding, e);
      DcdcControlChannelsKind();
    } else if t == DcdcStateTask(s) {
      StatusElementsOf(Dcdc, s.state, e, c);
    } else {
      DoublewordsChannels(s.measurements, DcdcMeasurementChannels(), FloatEncoding, e);
      DcdcMeasurementChannelsKind();
    }
  }

  lemma DcdcControlChannelsKind()
    ensures forall c :: c in DcdcControlChannels() ==> c.DcdcControl?
  {
  }

  lemma DcdcMeasurementChannelsKind()
    ensures forall c :: c in DcdcMeasurementChannels() ==> c.DcdcMeasured?
  {
  }

  lemma ControlParametersKind()
    ensures forall c :: c in ControlParameters() ==> c.Control?
  {
  }

  lemma IpuChannels(k: nat, t: Task, e: Element, c: Channel)
    requires k >= 1 && t in IpuTasks(k) && e in t.elements && c in ElementChannels(e)
    ensures (c.Status? && c.unit == Ipu(k)) || (c.IpuControl? && c.k == k)
  {
    var a := 32 * (k - 1);
    if t == IpuStatusTask(k) {
      StatusElementsOf(Ipu(k), 33168 + a, e, c);
    } else if t == IpuControlTask(k) {
      DoublewordsChannels(32624 + a, IpuControlChannels(k), FloatEncoding, e);
    } else {
      DoublewordsChannels(32944 + a, IpuControlChannels(k)[..6], FloatEncoding, e);
    }
  }

  lemma StatusElementsOf(u: Unit, a: nat, e: Element, c: Channel)
    requires e in StatusElements(u, a) && c in ElementChannels(e)
    ensures c.Status? && c.unit == u
  {
  }

  /** A read task that reads back the first elements of a write task, 320 registers higher. */
  predicate MirrorOf(w: Task, r: Task) {
    && w.access == Fc16Write && r.access == Fc3Read
    && r.start == w.start + 320
    && 0 < |r.elements| <= |w.elements|
    && forall i :: 0 <= i < |r.elements| ==> r.elements[i] == Shifted(w.elements[i], 320)
  }

  function Shifted(e: Element, d: nat): Element {
    e.(address := e.address + d)
  }

  lemma DoublewordsShift(start: nat, cs: seq<Channel>, m: nat, enc: Encoding)
    requires m <= |cs|
    ensures forall i :: 0 <= i < m ==>
      Doublewords(start + 320, cs[..m], enc)[i] == Shifted(Doublewords(start, cs, enc)[i], 320)
  {
  }

  /**
   * Every write task except the command block has a read-back task in
   * Protocol(n), 320 registers higher, mapping a prefix of its channels.
   */
  lemma WritesAreMirrored(n: InverterCount, w: Task)
    requires w in Protocol(n) && w.access == Fc16Write && w != CommandTask()
    ensures exists r :: r in Protocol(n) && MirrorOf(w, r)
  {
    var s := DcdcAddresses(n);
    WriteTasks(n, w);
    if w == ControlTask() {
      ControlMirrored(n);
    } else if w == DcdcControlTask(s) {
      DcdcMirrored(n);
    } else {
      var k :| 1 <= k <= n && w == IpuControlTask(k);
      IpuMirrored(n, k);
    }
  }

  lemma ControlMirrored(n: InverterCount)
    ensures ControlMirrorTask() in Protocol(n) && MirrorOf(ControlTask(), ControlMirrorTask())
  {
    DoublewordsShift(32592, ControlParameters(), 10, FloatEncoding);
    BaseTasksAt(n);
    assert Protocol(n)[4] in Protocol(n);
  }

  lemma DcdcMirrored(n: InverterCount)
    ensures DcdcMirrorTask(DcdcAddresses(n)) in Protocol(n)
    ensures MirrorOf(DcdcControlTask(DcdcAddresses(n)), DcdcMirrorTask(DcdcAddresses(n)))
  {
    var s := DcdcAddresses(n);
    DoublewordsShift(s.control, DcdcControlChannels(), 8, FloatEncoding);
    assert DcdcControlChannels()[..8] == DcdcControlChannels();
    DcdcTasksAt(n);
    assert Protocol(n)[6 + 3 * n] in Protocol(n);
  }

  lemma IpuMirrored(n: InverterCount, k: nat)
    requires 1 <= k <= n
    ensures IpuMirrorTask(k) in Protocol(n) && MirrorOf(IpuControlTask(k), IpuMirrorTask(k))
  {
    IpuTasksAt(n, k);
    assert Protocol(n)[7 + 3 * (k - 1)] in Protocol(n);
    DoublewordsShift(32624 + 32 * (k - 1), IpuControlChannels(k), 6, FloatEncoding);
  }

  /** The write tasks of Protocol(n): the command and control-parameter blocks, IPUs 1..n and the DC/DC control. */
  lemma WriteTasks(n: InverterCount, w: Task)
    requires w in Protocol(n) && w.access == Fc16Write
    ensures || w == CommandTask() || w == ControlTask() || w == DcdcControlTask(DcdcAddresses(n))
            || exists k :: 1 <= k <= n && w == IpuControlTask(k)
  {
    ProtocolMembers(n, w);
    if w !in BaseTasks() && w !in DcdcTasks(DcdcAddresses(n)) {
      var k :| 1 <= k <= n && w in IpuTasks(k);
      assert w == IpuControlTask(k);
    }
  }

  /**
   * The command read-back agrees with the command block on every element but
   * the first, where DISABLE_IPU_1 is read from bit 16 instead of bit 15,
   * which is outside the 16-bit register.
   */
  lemma CommandMirrorBitMoved()
    ensures var w := CommandTask(); var r := CommandMirrorTask();
      && r.start == w.start + 320 && |r.elements| <= |w.elements|
      && (forall i :: 1 <= i < |r.elements| ==> r.elements[i] == Shifted(w.elements[i], 320))
      && r.elements[0] != Shifted(w.elements[0], 320)
      && Bit(15, Command(DisableIpu(1))) in w.elements[0].bits
      && Bit(16, Command(DisableIpu(1))) in r.elements[0].bits
      && forall b :: b in r.elements[0].bits && b.channel == Command(DisableIpu(1)) ==> b.index >= 16
  {
    CommandMirrorShifted();
    DisableIpu1At(15);
    DisableIpu1At(16);
  }

  /** The disable word built with `bit` for IPU 1 holds IPU 1 at that bit and nowhere else. */
  lemma DisableIpu1At(bit: nat)
    ensures Bit(bit, Command(DisableIpu(1))) in DisableBits(bit)
    ensures forall b :: b in DisableBits(bit) && b.channel == Command(DisableIpu(1)) ==> b.index == bit
  {
    assert DisableBits(bit)[3] == Bit(bit, Command(DisableIpu(1)));
  }

  /** Past the first word, the command read-back is the command block moved up by 320 registers. */
  lemma CommandMirrorShifted()
    ensures var w := CommandTask(); var r := CommandMirrorTask();
      && r.start == w.start + 320 && |r.elements| <= |w.elements|
      && forall i :: 1 <= i < |r.elements| ==> r.elements[i] == Shifted(w.elements[i], 320)
  {
    var wHead := CommandHead(32560, 15);
    var rHead := CommandHead(32880, 16);
    var params := Doublewords(32564, CommandParameters(), FloatEncoding);
    var time := Doublewords(32572, [TimeSyncDate, TimeSyncTime], UnsignedEncoding);
    var w := wHead + params + time;
    var r := rHead + Doublewords(32884, CommandParameters(), FloatEncoding);
    assert CommandTask().elements == w && CommandMirrorTask().elements == r;
    DoublewordsShift(32564, CommandParameters(), 4, FloatEncoding);
    assert CommandParameters()[..4] == CommandParameters();
    assert forall i :: 3 <= i < 7 ==> r[i] == Shifted(w[i], 320);
  }

  /** Every task of Protocol(n) is one contiguous block from its start address. */
  lemma ProtocolPacked(n: InverterCount, t: Task)
    requires t in Protocol(n)
    ensures Packed(t.elements, t.start)
  {
    ProtocolMembers(n, t);
    if t in BaseTasks() {
      BasePacked(t);
    } else if t in DcdcTasks(DcdcAddresses(n)) {
      DcdcPacked(DcdcAddresses(n), t);
    } else {
      var k :| 1 <= k <= n && t in IpuTasks(k);
      IpuPacked(k, t);
    }
  }

  lemma CcuStatePacked()
    ensures Packed(CcuStateTask().elements, CcuStateTask().start)
  {
    DoublewordsPacked(32532, CcuMeasurements(), FloatEncoding);
    var head := [BitsWord(32528, CcuStateBits()), DummyRegister(32529), Doubleword(32530, CcuErrorCode, UnsignedEncoding)];
    assert Packed(head[2..], 32530);
    PackedAppend(head, Doublewords(32532, CcuMeasurements(), FloatEncoding), 32528);
  }

  lemma BasePacked(t: Task)
    requires t in BaseTasks()
    ensures Packed(t.elements, t.start)
  {
    if t == CcuStateTask() {
      CcuStatePacked();
    } else if t == CommandTask() {
      CommandPacked();
    } else if t == CommandMirrorTask() {
      CommandMirrorPacked();
    } else if t == ControlTask() {
      DoublewordsPacked(32592, ControlParameters(), FloatEncoding);
    } else {
      DoublewordsPacked(32912, ControlParameters()[..10], FloatEncoding);
    }
  }

  lemma DcdcPacked(s: DcdcStarts, t: Task)
    requires t in DcdcTasks(s)
    ensures Packed(t.elements, t.start)
  {
    if t == DcdcControlTask(s) {
      DoublewordsPacked(s.control, DcdcControlChannels(), FloatEncoding);
    } else if t == DcdcMirrorTask(s) {
      DoublewordsPacked(s.controlMirror, DcdcControlChannels(), FloatEncoding);
    } else if t == DcdcStateTask(s) {
      StatusPacked(Dcdc, s.state);
    } else {
      DoublewordsPacked(s.measurements, DcdcMeasurementChannels(), FloatEncoding);
    }
  }

  lemma IpuPacked(k: nat, t: Task)
    requires k >= 1 && t in IpuTasks(k)
    ensures Packed(t.elements, t.start)
  {
    var a := 32 * (k - 1);
    if t == IpuStatusTask(k) {
      StatusPacked(Ipu(k), 33168 + a);
    } else if t == IpuControlTask(k) {
      DoublewordsPacked(32624 + a, IpuControlChannels(k), FloatEncoding);
    } else {
      DoublewordsPacked(32944 + a, IpuControlChannels(k)[..6], FloatEncoding);
    }
  }

  /** A status block fills its 32-register slot exactly. */
  lemma StatusPacked(u: Unit, a: nat)
    ensures Packed(StatusElements(u, a), a) && Size(StatusElements(u, a)) == 32
  {
    var head := [Word(a, Status(u, StateMachineStatus)), Word(a + 1, Status(u, Mcu))];
    var d1 := Doublewords(a + 2, StatusChannels(u, [FilterCurrent, DcLinkPositiveVoltage, DcLinkNegativeVoltage,
                                                    DcLinkCurrent, DcLinkActivePower, DcLinkUtilization]), FloatEncoding);
    var d2 := Doublewords(a + 14, StatusChannels(u, [FanSpeedMax, FanSpeedMin]), UnsignedEncoding);
    var d3 := Doublewords(a + 18, StatusChannels(u, [TemperatureIgbtMax, TemperatureMcuBoard, TemperatureGridChoke,
                                                     TemperatureInverterChoke, Reserve1, Reserve2, Reserve3]), FloatEncoding);
    assert Packed(head[1..], a + 1);
    assert Size(head[1..]) == 1;
    DoublewordsPacked(a + 2, StatusChannels(u, [FilterCurrent, DcLinkPositiveVoltage, DcLinkNegativeVoltage,
                                                DcLinkCurrent, DcLinkActivePower, DcLinkUtilization]), FloatEncoding);
    DoublewordsPacked(a + 14, StatusChannels(u, [FanSpeedMax, FanSpeedMin]), UnsignedEncoding);
    DoublewordsPacked(a + 18, StatusChannels(u, [TemperatureIgbtMax, TemperatureMcuBoard, TemperatureGridChoke,
                                                 TemperatureInverterChoke, Reserve1, Reserve2, Reserve3]), FloatEncoding);
    PackedAppend(head, d1, a);
    PackedAppend(head + d1, d2, a);
    PackedAppend(head + d1 + d2, d3, a);
  }

  /** The command block: two bit words, the error-code feedback, four parameters and the time sync. */
  lemma CommandPacked()
    ensures Packed(CommandTask().elements, 32560)
  {
    var head := CommandHead(32560, 15);
    var params := Doublewords(32564, CommandParameters(), FloatEncoding);
    var time := Doublewords(32572, [TimeSyncDate, TimeSyncTime], UnsignedEncoding);
    assert CommandTask().elements == head + params + time;
    HeadPacked(head, 32560);
    DoublewordsPacked(32564, CommandParameters(), FloatEncoding);
    PackedAppend(head, params, 32560);
    DoublewordsPacked(32572, [TimeSyncDate, TimeSyncTime], UnsignedEncoding);
    PackedAppend(head + params, time, 32560);
  }

  lemma CommandMirrorPacked()
    ensures Packed(CommandMirrorTask().elements, 32880)
  {
    var head := CommandHead(32880, 16);
    var params := Doublewords(32884, CommandParameters(), FloatEncoding);
    assert CommandMirrorTask().elements == head + params;
    HeadPacked(head, 32880);
    DoublewordsPacked(32884, CommandParameters(), FloatEncoding);
    PackedAppend(head, params, 32880);
  }

  /** Two one-register elements followed by a doubleword occupy four registers. */
  lemma HeadPacked(head: seq<Element>, a: nat)
    requires |head| == 3 && head[0].address == a && head[1].address == a + 1 && head[2].address == a + 2
    requires !head[0].Doubleword? && !head[1].Doubleword? && head[2].Doubleword?
    ensures Packed(head, a) && Size(head) == 4
  {
    assert head[1..][1..] == head[2..];
    assert head[2..][1..] == [];
    assert Packed(head[2..], a + 2) && Size(head[2..]) == 2;
    assert Packed(head[1..], a + 1) && Size(head[1..]) == 3;
  }
}
