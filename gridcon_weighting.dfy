/**
 * Battery handling of the Gridcon driver: the allowed charge and discharge
 * power of all strings (handleBatteryData), the state-of-charge sums
 * (calculateSoc), the presence mask of the battery strings
 * (getWeightingMode), the per-string weights and power limits written to the
 * IPUs and the DC/DC stage (doStringWeighting, writeIPUParameters) and the
 * power references (applyPower).
 */
module StringWeighting {
  import opened Wrappers
  import opened JavaInt
  import opened GridconTypes

  /** The values of one battery string the driver reads (all Integer channels). */
  datatype Battery = Battery(
    voltage: Option<Int32>,
    chargeMaxCurrent: Option<Int32>,
    dischargeMaxCurrent: Option<Int32>,
    chargeMaxVoltage: Option<Int32>,
    dischargeMinVoltage: Option<Int32>,
    soc: Option<Int32>,
    capacity: Option<Int32>)

  /**
   * One configured battery string: whether its id is set (non-null and
   * non-empty) and what the component manager returns for that id (a battery,
   * null, or an exception).
   */
  datatype StringSlot = StringSlot(configured: bool, component: Lookup<Option<Battery>>)

  /** The three battery strings A, B, C and their minimum SOC settings. */
  datatype Strings = Strings(a: StringSlot, b: StringSlot, c: StringSlot)

  datatype MinSoc = MinSoc(a: int, b: int, c: int)

  function Slot(st: Strings, s: BatteryString): StringSlot {
    match s
    case StringA => st.a
    case StringB => st.b
    case StringC => st.c
  }

  /** The battery the component manager returned for string `s`, if any. */
  function BatteryOf(st: Strings, s: BatteryString): Option<Battery> {
    var slot := Slot(st, s);
    if slot.component.Found? then slot.component.value else None
  }

  predicate Present(st: Strings, s: BatteryString) {
    BatteryOf(st, s).Some?
  }

  // ---------------------------------------------------------------------
  // getBatteries and handleBatteryData
  // ---------------------------------------------------------------------

  /** getBatteries: the strings A, B, C whose lookup yields a battery, in that order; a failing lookup is skipped. */
  function GetBatteries(st: Strings): (bs: seq<Battery>)
    ensures |bs| == (if Present(st, StringA) then 1 else 0) + (if Present(st, StringB) then 1 else 0) + (if Present(st, StringC) then 1 else 0)
    ensures Present(st, StringA) ==> bs[0] == BatteryOf(st, StringA).value
    ensures Present(st, StringB) ==> bs[if Present(st, StringA) then 1 else 0] == BatteryOf(st, StringB).value
    ensures Present(st, StringC) ==> bs[|bs| - 1] == BatteryOf(st, StringC).value
    ensures |bs| <= 3
    ensures forall b :: b in bs <==>
      BatteryOf(st, StringA) == Some(b) || BatteryOf(st, StringB) == Some(b) || BatteryOf(st, StringC) == Some(b)
  {
    var a := if Present(st, StringA) then [BatteryOf(st, StringA).value] else [];
    var b := if Present(st, StringB) then [BatteryOf(st, StringB).value] else [];
    var c := if Present(st, StringC) then [BatteryOf(st, StringC).value] else [];
    a + b + c
  }

  /** The exact (unbounded) allowed charge power: minus the sum of voltage times charge current, absent values counting 0. */
  function ExactCharge(bs: seq<Battery>): int
  {
    if bs == [] then 0 else ExactCharge(bs[..|bs| - 1]) - ChargeProduct(Last(bs))
  }

  /** Voltage times charge current of one battery, absent values counting 0. */
  function ChargeProduct(b: Battery): int {
    b.voltage.GetOr(0) * b.chargeMaxCurrent.GetOr(0)
  }

  /** Voltage times discharge current of one battery, absent values counting 0. */
  function DischargeProduct(b: Battery): int {
    b.voltage.GetOr(0) * b.dischargeMaxCurrent.GetOr(0)
  }

  /** Java's `v * c * -1` for one battery: two wrapped products. */
  function ChargeTerm(b: Battery): (t: Int32)
    ensures t == Wrap(-ChargeProduct(b))
  {
    var v := b.voltage.GetOr(0);
    var c := b.chargeMaxCurrent.GetOr(0);
    WrapMulLeft(v * c, -1);
    Mul(Mul(v, c), -1)
  }

  /** Java's `v * d` for one battery. */
  function DischargeTerm(b: Battery): (t: Int32)
    ensures t == Wrap(DischargeProduct(b))
  {
    Mul(b.voltage.GetOr(0), b.dischargeMaxCurrent.GetOr(0))
  }

  /** The exact (unbounded) allowed discharge power: the sum of voltage times discharge current. */
  function ExactDischarge(bs: seq<Battery>): int
  {
    if bs == [] then 0 else ExactDischarge(bs[..|bs| - 1]) + DischargeProduct(Last(bs))
  }

  function Last<T>(s: seq<T>): T
    requires s != []
  {
    s[|s| - 1]
  }

  /** With non-negative voltages and currents the allowed charge is never positive and the allowed discharge never negative. */
  lemma {:induction false} AllowedPowerSigns(bs: seq<Battery>)
    requires forall b :: b in bs ==> b.voltage.GetOr(0) >= 0 && b.chargeMaxCurrent.GetOr(0) >= 0 && b.dischargeMaxCurrent.GetOr(0) >= 0
    ensures ExactCharge(bs) <= 0 <= ExactDischarge(bs)
    decreases |bs|
  {
    if bs != [] {
      var init := bs[..|bs| - 1];
      assert forall b :: b in init ==> b in bs;
      AllowedPowerSigns(init);
      assert Last(bs) in bs;
      ProductNonNegative(Last(bs).voltage.GetOr(0), Last(bs).chargeMaxCurrent.GetOr(0));
      ProductNonNegative(Last(bs).voltage.GetOr(0), Last(bs).dischargeMaxCurrent.GetOr(0));
    }
  }

  lemma ProductNonNegative(x: int, y: int)
    requires x >= 0 && y >= 0
    ensures x * y >= 0
  {
  }

  /**
   * handleBatteryData: accumulate the allowed charge and discharge power over
   * the batteries in Java `int` arithmetic and stage both. The results are the
   * exact sums wrapped to 32 bits, so they equal the exact sums whenever
   * those fit.
   */
  method HandleBatteryData(bs: seq<Battery>) returns (charge: Int32, discharge: Int32, ws: seq<Write>)
    ensures charge == Wrap(ExactCharge(bs)) && discharge == Wrap(ExactDischarge(bs))
    ensures ws == [Write(AllowedCharge, IntValue(charge)), Write(AllowedDischarge, IntValue(discharge))]
  {
    charge := 0;
    discharge := 0;
    var i := 0;
    while i < |bs|
      invariant 0 <= i <= |bs|
      invariant charge == Wrap(ExactCharge(bs[..i]))
      invariant discharge == Wrap(ExactDischarge(bs[..i]))
    {
      assert bs[..i + 1][..i] == bs[..i];
      WrapAccumulates(ExactCharge(bs[..i]), ChargeTerm(bs[i]), -ChargeProduct(bs[i]));
      charge := Add(charge, ChargeTerm(bs[i]));
      WrapAccumulates(ExactDischarge(bs[..i]), DischargeTerm(bs[i]), DischargeProduct(bs[i]));
      discharge := Add(discharge, DischargeTerm(bs[i]));
      i := i + 1;
    }
    assert bs[..i] == bs;
    ws := [Write(AllowedCharge, IntValue(charge)), Write(AllowedDischarge, IntValue(discharge))];
  }

  /** Java's `acc += term` where the term is already wrapped: the running wrapped sum stays the wrap of the exact sum. */
  lemma WrapAccumulates(exact: int, term: Int32, exactTerm: int)
    requires term == Wrap(exactTerm)
    ensures Add(Wrap(exact), term) == Wrap(exact + exactTerm)
  {
    WrapAddLeft(exact, term);
    WrapAddLeft(exactTerm, exact);
  }

  // ---------------------------------------------------------------------
  // calculateSoc
  // ---------------------------------------------------------------------

  /** The two sums calculateSoc accumulates before rounding, or Unset when a battery lacks capacity or SOC. */
  datatype SocSums = Unset | Sums(totalCapacity: real, currentCapacity: real)

  predicate Known(b: Battery) { b.capacity.Some? && b.soc.Some? }

  function SocSumsOf(bs: seq<Battery>): SocSums
  {
    if bs == [] then Sums(0.0, 0.0)
    else
      var init := SocSumsOf(bs[..|bs| - 1]);
      var b := Last(bs);
      if init.Unset? || !Known(b) then Unset
      else Sums(init.totalCapacity + b.capacity.value as real,
                init.currentCapacity + ChargedCapacity(b))
  }

  /** Java's `capacity * soc / 100.0` for a battery reporting both: an int product, then a double division. */
  function ChargedCapacity(b: Battery): real
    requires Known(b)
  {
    (Mul(b.capacity.value, b.soc.value) as real) / 100.0
  }

  /** calculateSoc: sum the capacities and the charged capacities, giving up on the first battery without a value. */
  method CalculateSoc(bs: seq<Battery>) returns (r: SocSums)
    ensures r == SocSumsOf(bs)
  {
    var total := 0.0;
    var current := 0.0;
    var i := 0;
    while i < |bs|
      invariant 0 <= i <= |bs|
      invariant SocSumsOf(bs[..i]) == Sums(total, current)
    {
      assert bs[..i + 1][..i] == bs[..i];
      var b := bs[i];
      if b.capacity.None? || b.soc.None? {
        assert b in bs[..i + 1];
        SocUnsetPersists(bs, i + 1);
        return Unset;
      }
      total := total + b.capacity.value as real;
      current := current + ChargedCapacity(b);
      i := i + 1;
    }
    assert bs[..i] == bs;
    r := Sums(total, current);
  }

  /** The sums are unset exactly when some battery lacks its capacity or its SOC. */
  lemma {:induction false} SocSumsUnset(bs: seq<Battery>)
    ensures SocSumsOf(bs).Unset? <==> exists b :: b in bs && !Known(b)
    decreases |bs|
  {
    if bs != [] {
      var init := bs[..|bs| - 1];
      SocSumsUnset(init);
      assert bs == init + [Last(bs)];
      assert forall x :: x in bs <==> x in init || x == Last(bs);
    }
  }

  lemma SocUnsetPersists(bs: seq<Battery>, i: nat)
    requires i <= |bs| && SocSumsOf(bs[..i]).Unset?
    ensures SocSumsOf(bs).Unset?
  {
    SocSumsUnset(bs[..i]);
    var b :| b in bs[..i] && !Known(b);
    assert b in bs;
    SocSumsUnset(bs);
  }

  /**
   * When every battery reports the same SOC s (and capacity times SOC fits an
   * int), the capacity-weighted SOC before rounding is s itself.
   */
  lemma {:induction false} UniformSoc(bs: seq<Battery>, s: int)
    requires forall i :: 0 <= i < |bs| ==> ChargedTo(bs[i], s)
    ensures SocSumsOf(bs).Sums? && AtSoc(SocSumsOf(bs), s)
    decreases |bs|
  {
    if bs != [] {
      var init := bs[..|bs| - 1];
      UniformSoc(init, s);
      var last := Last(bs);
      assert ChargedTo(last, s);
      SocStep(SocSumsOf(init), last, s);
      assert SocSumsOf(bs) == AddBattery(SocSumsOf(init), last);
    }
  }

  /** Sums whose charged capacity is s percent of the total capacity. */
  predicate AtSoc(sums: SocSums, s: int) {
    sums.Sums? && sums.currentCapacity * 100.0 == sums.totalCapacity * (s as real)
  }

  /** A battery that reports SOC s and whose capacity times s fits an int. */
  predicate ChargedTo(b: Battery, s: int) {
    Known(b) && b.soc.value == s && MinInt <= b.capacity.value * s <= MaxInt
  }

  /** The sums after one more battery with capacity and SOC. */
  function AddBattery(sums: SocSums, b: Battery): SocSums
    requires sums.Sums? && Known(b)
  {
    Sums(sums.totalCapacity + b.capacity.value as real, sums.currentCapacity + ChargedCapacity(b))
  }

  /** Adding a battery charged to s keeps the charged capacity at s percent of the total. */
  lemma SocStep(sums: SocSums, b: Battery, s: int)
    requires AtSoc(sums, s) && ChargedTo(b, s)
    ensures AtSoc(AddBattery(sums, b), s)
  {
    var cap, sr := b.capacity.value as real, s as real;
    assert ChargedCapacity(b) == cap * sr / 100.0 by {
      CastProduct(b.capacity.value, s);
    }
    RealStep(sums.totalCapacity, sums.currentCapacity, cap, sr);
  }

  lemma CastProduct(x: int, y: int)
    ensures (x * y) as real == (x as real) * (y as real)
  {
  }

  lemma RealStep(total: real, current: real, cap: real, s: real)
    requires current * 100.0 == total * s
    ensures (current + cap * s / 100.0) * 100.0 == (total + cap) * s
  {
  }

  // ---------------------------------------------------------------------
  // getWeightingMode
  // ---------------------------------------------------------------------

  /** The contribution of one string to the mask: its bit when configured and found, an exception when its lookup fails. */
  function MaskBit(slot: StringSlot, bit: int): Option<int> {
    if !slot.configured then Some(0)
    else if slot.component.LookupFailed? then None
    else if slot.component.value.Some? then Some(bit)
    else Some(0)
  }

  /** getWeightingMode: A = 1, B = 8, C = 64 for each configured string that exists; a mask of 0 throws (None). */
  function WeightingMode(st: Strings): (r: Option<int>)
    ensures r.Some? ==> r.value != 0
  {
    var a := MaskBit(st.a, 1);
    var b := MaskBit(st.b, 8);
    var c := MaskBit(st.c, 64);
    if a.None? || b.None? || c.None? then None
    else if a.value + b.value + c.value == 0 then None
    else Some(a.value + b.value + c.value)
  }

  /** A string counts in the mask when it is configured and its lookup yields a battery. */
  predicate Counted(slot: StringSlot) {
    slot.configured && slot.component.Found? && slot.component.value.Some?
  }

  /**
   * The mask names exactly the counted strings (73 = all three), it is
   * missing exactly when a configured lookup throws or no string counts.
   */
  lemma WeightingModeNamesStrings(st: Strings)
    ensures var r := WeightingMode(st);
      && (r.None? <==>
            || (st.a.configured && st.a.component.LookupFailed?)
            || (st.b.configured && st.b.component.LookupFailed?)
            || (st.c.configured && st.c.component.LookupFailed?)
            || (!Counted(st.a) && !Counted(st.b) && !Counted(st.c)))
      && (r.Some? ==>
            && (r.value % 8 == 1 <==> Counted(st.a))
            && (r.value / 8 % 8 == 1 <==> Counted(st.b))
            && (r.value / 64 == 1 <==> Counted(st.c))
            && (r.value == 73 <==> Counted(st.a) && Counted(st.b) && Counted(st.c)))
  {
  }

  // ---------------------------------------------------------------------
  // doStringWeighting
  // ---------------------------------------------------------------------

  /** P > 0: the discharge current, cut to 0 when the SOC (absent = 0) has reached the minimum; absent string: 0. */
  function DischargeWeight(b: Option<Battery>, minSoc: int): (w: Int32)
    ensures b.None? ==> w == 0
    ensures b.Some? && b.value.soc.GetOr(0) <= minSoc ==> w == 0
    ensures b.Some? && b.value.soc.GetOr(0) > minSoc ==> w == b.value.dischargeMaxCurrent.GetOr(0)
  {
    if b.None? then 0
    else if b.value.soc.GetOr(0) <= minSoc then 0
    else b.value.dischargeMaxCurrent.GetOr(0)
  }

  /** P < 0: the charge current; absent string: 0. */
  function ChargeWeight(b: Option<Battery>): (w: Int32)
    ensures w == if b.Some? then b.value.chargeMaxCurrent.GetOr(0) else 0
  {
    if b.None? then 0 else b.value.chargeMaxCurrent.GetOr(0)
  }

  function Min(x: int, y: int): int { if x <= y then x else y }

  /** The voltage of a present string, if it reports one. */
  function VoltageOf(b: Option<Battery>): Option<Int32> {
    if b.Some? then b.value.voltage else None
  }

  /**
   * P = 0: for the combinations ABC, AB, AC and BC with every voltage of the
   * combination present, each string of it weighs its voltage above the
   * lowest one; any other case leaves all weights 0.
   */
  function BalanceWeights(a: Option<Battery>, b: Option<Battery>, c: Option<Battery>): (w: (Int32, Int32, Int32))
  {
    var va := VoltageOf(a);
    var vb := VoltageOf(b);
    var vc := VoltageOf(c);
    if a.Some? && b.Some? && c.Some? then
      if va.Some? && vb.Some? && vc.Some? then
        var m := Min(va.value, Min(vb.value, vc.value));
        (Sub(va.value, m), Sub(vb.value, m), Sub(vc.value, m))
      else (0, 0, 0)
    else if a.Some? && b.Some? && c.None? then
      if va.Some? && vb.Some? then
        var m := Min(va.value, vb.value);
        (Sub(va.value, m), Sub(vb.value, m), 0)
      else (0, 0, 0)
    else if a.Some? && b.None? && c.Some? then
      if va.Some? && vc.Some? then
        var m := Min(va.value, vc.value);
        (Sub(va.value, m), 0, Sub(vc.value, m))
      else (0, 0, 0)
    else if a.None? && b.Some? && c.Some? then
      if vb.Some? && vc.Some? then
        var m := Min(vb.value, vc.value);
        (0, Sub(vb.value, m), Sub(vc.value, m))
      else (0, 0, 0)
    else (0, 0, 0)
  }

  /** The three weights doStringWeighting computes for active power `p`. */
  function Weights(p: Int32, a: Option<Battery>, b: Option<Battery>, c: Option<Battery>, minSoc: MinSoc): (w: (Int32, Int32, Int32))
    ensures (a.None? ==> w.0 == 0) && (b.None? ==> w.1 == 0) && (c.None? ==> w.2 == 0)
    ensures p < 0 ==> w == (ChargeWeight(a), ChargeWeight(b), ChargeWeight(c))
    ensures p > 0 ==> w == (DischargeWeight(a, minSoc.a), DischargeWeight(b, minSoc.b), DischargeWeight(c, minSoc.c))
  {
    if p > 0 then (DischargeWeight(a, minSoc.a), DischargeWeight(b, minSoc.b), DischargeWeight(c, minSoc.c))
    else if p < 0 then (ChargeWeight(a), ChargeWeight(b), ChargeWeight(c))
    else BalanceWeights(a, b, c)
  }

  /** With P = 0 and fewer than two strings present, every weight is 0. */
  lemma BalanceNeedsTwoStrings(a: Option<Battery>, b: Option<Battery>, c: Option<Battery>)
    requires (if a.Some? then 1 else 0) + (if b.Some? then 1 else 0) + (if c.Some? then 1 else 0) < 2
    ensures BalanceWeights(a, b, c) == (0, 0, 0)
  {
  }

  /**
   * With P = 0, a balanced combination whose voltages are present and
   * non-negative gets non-negative weights, each string its voltage minus the
   * lowest voltage of the combination, so the lowest string weighs 0; absent
   * strings weigh 0.
   */
  lemma BalanceWeighsExcessVoltage(a: Option<Battery>, b: Option<Battery>, c: Option<Battery>)
    requires forall x :: x in [a, b, c] && x.Some? ==> x.value.voltage.Some? && x.value.voltage.value >= 0
    ensures var w := BalanceWeights(a, b, c);
      && w.0 >= 0 && w.1 >= 0 && w.2 >= 0
      && (a.None? ==> w.0 == 0) && (b.None? ==> w.1 == 0) && (c.None? ==> w.2 == 0)
      && ((if a.Some? then 1 else 0) + (if b.Some? then 1 else 0) + (if c.Some? then 1 else 0) >= 2 ==>
            (a.Some? && w.0 == 0) || (b.Some? && w.1 == 0) || (c.Some? && w.2 == 0))
      && (a.Some? && b.Some? ==> w.0 - w.1 == a.value.voltage.value - b.value.voltage.value)
      && (a.Some? && c.Some? ==> w.0 - w.2 == a.value.voltage.value - c.value.voltage.value)
      && (b.Some? && c.Some? ==> w.1 - w.2 == b.value.voltage.value - c.value.voltage.value)
  {
    assert a in [a, b, c] && b in [a, b, c] && c in [a, b, c];
  }

  /**
   * With P = 0, one present string without a voltage reading leaves all
   * weights 0: every combination it belongs to needs all its voltages.
   */
  lemma BalanceMissingVoltage(a: Option<Battery>, b: Option<Battery>, c: Option<Battery>)
    requires exists x :: x in [a, b, c] && x.Some? && x.value.voltage.None?
    ensures BalanceWeights(a, b, c) == (0, 0, 0)
  {
  }

  /** The maximum charge power of a string: charge current times maximum charge voltage (Java `int` product); 0 when absent. */
  function MaxChargePower(b: Option<Battery>): (p: Int32)
    ensures b.None? ==> p == 0
    ensures b.Some? ==> p == Wrap(b.value.chargeMaxCurrent.GetOr(0) * b.value.chargeMaxVoltage.GetOr(0))
  {
    if b.None? then 0 else Mul(b.value.chargeMaxCurrent.GetOr(0), b.value.chargeMaxVoltage.GetOr(0))
  }

  /** The maximum discharge power of a string: discharge current times minimum discharge voltage; 0 when absent. */
  function MaxDischargePower(b: Option<Battery>): (p: Int32)
    ensures b.None? ==> p == 0
    ensures b.Some? ==> p == Wrap(b.value.dischargeMaxCurrent.GetOr(0) * b.value.dischargeMinVoltage.GetOr(0))
  {
    if b.None? then 0 else Mul(b.value.dischargeMaxCurrent.GetOr(0), b.value.dischargeMinVoltage.GetOr(0))
  }

  /** The six zero offsets and the two power limits written to IPU k; discharge limits are written negated. */
  function IpuBlock(k: nat, maxDischarge: real, maxCharge: real): (ws: seq<Write>)
    ensures |ws| == 8
    ensures ws[6] == Write(IpuControl(k, PMaxDischarge), RealValue(-maxDischarge))
    ensures ws[7] == Write(IpuControl(k, PMaxCharge), RealValue(maxCharge))
  {
    [Write(IpuControl(k, DcVoltageSetpoint), RealValue(0.0)),
     Write(IpuControl(k, DcCurrentSetpoint), RealValue(0.0)),
     Write(IpuControl(k, U0OffsetToCcuValue), RealValue(0.0)),
     Write(IpuControl(k, F0OffsetToCcuValue), RealValue(0.0)),
     Write(IpuControl(k, QRefOffsetToCcuValue), RealValue(0.0)),
     Write(IpuControl(k, PRefOffsetToCcuValue), RealValue(0.0)),
     Write(IpuControl(k, PMaxDischarge), RealValue(-maxDischarge)),
     Write(IpuControl(k, PMaxCharge), RealValue(maxCharge))]
  }

  /** Every write goes to the control parameters of an IPU numbered lo+1..hi. */
  predicate WritesIpus(ws: seq<Write>, lo: int, hi: int)
  {
    forall w :: w in ws ==> w.channel.IpuControl? && lo < w.channel.k <= hi
  }

  /** IPU k's block writes only IPU k's control parameters. */
  lemma IpuBlockChannels(k: nat, maxDischarge: real, maxCharge: real)
    ensures WritesIpus(IpuBlock(k, maxDischarge, maxCharge), k - 1, k)
  {
  }

  /** The IPU blocks of IPU 1..n. */
  function IpuBlocks(n: nat, maxDischarge: seq<real>, maxCharge: seq<real>): (ws: seq<Write>)
    requires n <= |maxDischarge| && n <= |maxCharge|
    ensures |ws| == 8 * n
  {
    if n == 0 then [] else IpuBlocks(n - 1, maxDischarge, maxCharge) + IpuBlock(n, maxDischarge[n - 1], maxCharge[n - 1])
  }

  /** The IPU blocks write only the IPU control parameters of IPUs 1..n. */
  lemma IpuBlocksChannels(n: nat, maxDischarge: seq<real>, maxCharge: seq<real>)
    requires n <= |maxDischarge| && n <= |maxCharge|
    ensures forall w :: w in IpuBlocks(n, maxDischarge, maxCharge) ==> w.channel.IpuControl? && 1 <= w.channel.k <= n
  {
    IpuBlocksSplit(0, n, maxDischarge, maxCharge);
    IpuBlocksAboveChannels(0, n, maxDischarge, maxCharge);
    assert IpuBlocks(0, maxDischarge, maxCharge) == [];
    assert WritesIpus(IpuBlocksAbove(0, n, maxDischarge, maxCharge), 0, n);
  }

  /** Writes to IPUs lo+1..mid followed by writes to IPUs mid+1..hi are writes to IPUs lo+1..hi. */
  lemma WritesIpusJoin(prev: seq<Write>, next: seq<Write>, lo: int, mid: int, hi: int)
    requires lo <= mid <= hi
    requires WritesIpus(prev, lo, mid) && WritesIpus(next, mid, hi)
    ensures WritesIpus(prev + next, lo, hi)
  {
    forall w | w in prev + next
      ensures w.channel.IpuControl? && lo < w.channel.k <= hi
    {
      if w in prev {
        assert w.channel.IpuControl? && lo < w.channel.k <= mid;
      } else {
        assert w in next;
      }
    }
  }

  /** The IPU blocks of IPUs k+1..n. */
  function IpuBlocksAbove(k: nat, n: nat, maxDischarge: seq<real>, maxCharge: seq<real>): seq<Write>
    requires k <= n <= |maxDischarge| && n <= |maxCharge|
    decreases n - k
  {
    if n == k then [] else IpuBlocksAbove(k, n - 1, maxDischarge, maxCharge) + IpuBlock(n, maxDischarge[n - 1], maxCharge[n - 1])
  }

  /** The blocks of IPUs 1..n are those of IPUs 1..k followed by those of IPUs k+1..n. */
  lemma {:induction false} IpuBlocksSplit(k: nat, n: nat, maxDischarge: seq<real>, maxCharge: seq<real>)
    requires k <= n <= |maxDischarge| && n <= |maxCharge|
    ensures IpuBlocks(n, maxDischarge, maxCharge) == IpuBlocks(k, maxDischarge, maxCharge) + IpuBlocksAbove(k, n, maxDischarge, maxCharge)
    decreases n - k
  {
    if n > k {
      IpuBlocksSplit(k, n - 1, maxDischarge, maxCharge);
      IpuBlocksSplitStep(k, n, maxDischarge, maxCharge);
    } else {
      NoBlocksAbove(k, maxDischarge, maxCharge);
      assert IpuBlocks(k, maxDischarge, maxCharge) + [] == IpuBlocks(k, maxDischarge, maxCharge);
    }
  }

  /** A split at k below n - 1 extends to a split at k below n. */
  lemma IpuBlocksSplitStep(k: nat, n: nat, maxDischarge: seq<real>, maxCharge: seq<real>)
    requires k < n <= |maxDischarge| && n <= |maxCharge|
    requires IpuBlocks(n - 1, maxDischarge, maxCharge) == IpuBlocks(k, maxDischarge, maxCharge) + IpuBlocksAbove(k, n - 1, maxDischarge, maxCharge)
    ensures IpuBlocks(n, maxDischarge, maxCharge) == IpuBlocks(k, maxDischarge, maxCharge) + IpuBlocksAbove(k, n, maxDischarge, maxCharge)
  {
    IpuBlocksUnfold(n, maxDischarge, maxCharge);
    IpuBlocksAboveUnfold(k, n, maxDischarge, maxCharge);
    JoinBlocks(IpuBlocks(n, maxDischarge, maxCharge), IpuBlocks(n - 1, maxDischarge, maxCharge),
               IpuBlocks(k, maxDischarge, maxCharge), IpuBlocksAbove(k, n - 1, maxDischarge, maxCharge),
               IpuBlock(n, maxDischarge[n - 1], maxCharge[n - 1]), IpuBlocksAbove(k, n, maxDischarge, maxCharge));
  }

  /** The blocks of IPUs 1..n end with IPU n's block. */
  lemma IpuBlocksUnfold(n: nat, maxDischarge: seq<real>, maxCharge: seq<real>)
    requires 1 <= n <= |maxDischarge| && n <= |maxCharge|
    ensures IpuBlocks(n, maxDischarge, maxCharge) == IpuBlocks(n - 1, maxDischarge, maxCharge) + IpuBlock(n, maxDischarge[n - 1], maxCharge[n - 1])
  {
  }

  /** The blocks of IPUs k+1..n end with IPU n's block. */
  lemma IpuBlocksAboveUnfold(k: nat, n: nat, maxDischarge: seq<real>, maxCharge: seq<real>)
    requires k < n <= |maxDischarge| && n <= |maxCharge|
    ensures IpuBlocksAbove(k, n, maxDischarge, maxCharge) == IpuBlocksAbove(k, n - 1, maxDischarge, maxCharge) + IpuBlock(n, maxDischarge[n - 1], maxCharge[n - 1])
  {
  }

  /** There are no IPUs above k up to k. */
  lemma NoBlocksAbove(k: nat, maxDischarge: seq<real>, maxCharge: seq<real>)
    requires k <= |maxDischarge| && k <= |maxCharge|
    ensures IpuBlocksAbove(k, k, maxDischarge, maxCharge) == []
  {
  }

  /** Regrouping a concatenation: (low + mid) + block is low followed by mid + block. */
  lemma JoinBlocks(whole: seq<Write>, prev: seq<Write>, low: seq<Write>, mid: seq<Write>, block: seq<Write>, above: seq<Write>)
    requires whole == prev + block && prev == low + mid && above == mid + block
    ensures whole == low + above
  {
  }

  /** The blocks of IPUs k+1..n write only IPUs k+1..n. */
  lemma {:induction false} IpuBlocksAboveChannels(k: nat, n: nat, maxDischarge: seq<real>, maxCharge: seq<real>)
    requires k <= n <= |maxDischarge| && n <= |maxCharge|
    ensures WritesIpus(IpuBlocksAbove(k, n, maxDischarge, maxCharge), k, n)
    decreases n - k
  {
    if n > k {
      IpuBlocksAboveChannels(k, n - 1, maxDischarge, maxCharge);
      IpuBlocksAboveChannelsStep(k, n, maxDischarge, maxCharge);
    } else {
      NoBlocksAbove(k, maxDischarge, maxCharge);
    }
  }

  /** Adding IPU n's block to the blocks of IPUs k+1..n-1 keeps every write within IPUs k+1..n. */
  lemma IpuBlocksAboveChannelsStep(k: nat, n: nat, maxDischarge: seq<real>, maxCharge: seq<real>)
    requires k < n <= |maxDischarge| && n <= |maxCharge|
    requires WritesIpus(IpuBlocksAbove(k, n - 1, maxDischarge, maxCharge), k, n - 1)
    ensures WritesIpus(IpuBlocksAbove(k, n, maxDischarge, maxCharge), k, n)
  {
    IpuBlockChannels(n, maxDischarge[n - 1], maxCharge[n - 1]);
    IpuBlocksAboveUnfold(k, n, maxDischarge, maxCharge);
    WritesIpusJoin(IpuBlocksAbove(k, n - 1, maxDischarge, maxCharge), IpuBlock(n, maxDischarge[n - 1], maxCharge[n - 1]), k, n - 1, n);
  }

  /** The last write to `c` in a suffix decides its value. */
  lemma LastValueOfSuffix(prefix: seq<Write>, suffix: seq<Write>, c: Channel, i: nat)
    requires i < |suffix| && suffix[i].channel == c
    requires forall j :: i < j < |suffix| ==> suffix[j].channel != c
    ensures LastValue(prefix + suffix, c) == Some(suffix[i].value)
    decreases |suffix| - i
  {
    var whole := prefix + suffix;
    if i < |suffix| - 1 {
      assert whole[..|whole| - 1] == prefix + suffix[..|suffix| - 1];
      LastValueOfSuffix(prefix, suffix[..|suffix| - 1], c, i);
    }
  }

  /** A suffix that never writes `c` leaves its value as the prefix set it. */
  lemma {:induction false} LastValueSkipsSuffix(prefix: seq<Write>, suffix: seq<Write>, c: Channel)
    requires forall w :: w in suffix ==> w.channel != c
    ensures LastValue(prefix + suffix, c) == LastValue(prefix, c)
    decreases |suffix|
  {
    if suffix != [] {
      var whole := prefix + suffix;
      assert whole[..|whole| - 1] == prefix + suffix[..|suffix| - 1];
      assert Last(suffix) in suffix;
      LastValueSkipsSuffix(prefix, suffix[..|suffix| - 1], c);
    } else {
      assert prefix + suffix == prefix;
    }
  }

  /** IPU k <= n ends with the negated discharge limit and the charge limit of string k. */
  lemma IpuBlocksLimits(n: nat, maxDischarge: seq<real>, maxCharge: seq<real>, k: nat)
    requires n <= |maxDischarge| && n <= |maxCharge| && 1 <= k <= n
    ensures LastValue(IpuBlocks(n, maxDischarge, maxCharge), IpuControl(k, PMaxDischarge)) == Some(RealValue(-maxDischarge[k - 1]))
    ensures LastValue(IpuBlocks(n, maxDischarge, maxCharge), IpuControl(k, PMaxCharge)) == Some(RealValue(maxCharge[k - 1]))
  {
    var low := IpuBlocks(k, maxDischarge, maxCharge);
    var high := IpuBlocksAbove(k, n, maxDischarge, maxCharge);
    IpuBlocksSplit(k, n, maxDischarge, maxCharge);
    IpuBlocksAboveChannels(k, n, maxDischarge, maxCharge);
    LastValueSkipsSuffix(low, high, IpuControl(k, PMaxDischarge));
    LastValueSkipsSuffix(low, high, IpuControl(k, PMaxCharge));
    IpuBlockOwnLimit(k, maxDischarge, maxCharge, PMaxDischarge);
    IpuBlockOwnLimit(k, maxDischarge, maxCharge, PMaxCharge);
  }

  /** The limit value IPU k's block writes to field f. */
  function LimitValue(maxDischarge: seq<real>, maxCharge: seq<real>, k: nat, f: IpuControlField): real
    requires 1 <= k <= |maxDischarge| && k <= |maxCharge|
  {
    if f == PMaxDischarge then -maxDischarge[k - 1] else maxCharge[k - 1]
  }

  /** IPU n's block sets IPU n's limits. */
  lemma IpuBlockOwnLimit(n: nat, maxDischarge: seq<real>, maxCharge: seq<real>, f: IpuControlField)
    requires 1 <= n <= |maxDischarge| && n <= |maxCharge| && (f == PMaxDischarge || f == PMaxCharge)
    ensures LastValue(IpuBlocks(n, maxDischarge, maxCharge), IpuControl(n, f)) == Some(RealValue(LimitValue(maxDischarge, maxCharge, n, f)))
  {
    var prev := IpuBlocks(n - 1, maxDischarge, maxCharge);
    var block := IpuBlock(n, maxDischarge[n - 1], maxCharge[n - 1]);
    assert IpuBlocks(n, maxDischarge, maxCharge) == prev + block;
    LastValueOfSuffix(prev, block, IpuControl(n, f), if f == PMaxDischarge then 6 else 7);
  }

  /** The DC/DC references, weights and string control mode, written after the IPU blocks. */
  function DcdcWrites(weights: (real, real, real), mode: real): (ws: seq<Write>)
    ensures |ws| == 8
  {
    [Write(DcdcControl(IRefString(StringA)), RealValue(0.0)),
     Write(DcdcControl(IRefString(StringB)), RealValue(0.0)),
     Write(DcdcControl(IRefString(StringC)), RealValue(0.0)),
     Write(DcdcControl(DcdcVoltageSetpoint), RealValue(800.0)),
     Write(DcdcControl(WeightString(StringA)), RealValue(weights.0)),
     Write(DcdcControl(WeightString(StringB)), RealValue(weights.1)),
     Write(DcdcControl(WeightString(StringC)), RealValue(weights.2)),
     Write(DcdcControl(StringControlMode), RealValue(mode))]
  }

  /** The DC/DC writes touch only DC/DC control parameters. */
  lemma DcdcWritesChannels(weights: (real, real, real), mode: real)
    ensures forall w :: w in DcdcWrites(weights, mode) ==> w.channel.DcdcControl?
  {
  }

  /** writeIPUParameters: the IPU blocks of the configured inverters, then the DC/DC references, weights and string control mode. */
  function WriteIpuParameters(n: InverterCount, weights: (real, real, real), maxDischarge: seq<real>, maxCharge: seq<real>, mode: real): (ws: seq<Write>)
    requires |maxDischarge| == 3 && |maxCharge| == 3
    ensures |ws| == 8 * n + 8
    ensures ws[8 * n + 3] == Write(DcdcControl(DcdcVoltageSetpoint), RealValue(800.0))
  {
    IpuBlocks(n, maxDischarge, maxCharge) + DcdcWrites(weights, mode)
  }

  /**
   * writeIPUParameters leaves IPU k <= n with the negated discharge limit and
   * the charge limit of string k, leaves IPUs above n alone, sets the DC/DC
   * voltage to 800 V, and the weights and control mode as given.
   */
  lemma WriteIpuParametersEffect(n: InverterCount, weights: (real, real, real), maxDischarge: seq<real>, maxCharge: seq<real>, mode: real, k: nat)
    requires |maxDischarge| == 3 && |maxCharge| == 3 && 1 <= k
    ensures var ws := WriteIpuParameters(n, weights, maxDischarge, maxCharge, mode);
      && (k <= n ==> LastValue(ws, IpuControl(k, PMaxDischarge)) == Some(RealValue(-maxDischarge[k - 1])))
      && (k <= n ==> LastValue(ws, IpuControl(k, PMaxCharge)) == Some(RealValue(maxCharge[k - 1])))
      && (k > n ==> LastValue(ws, IpuControl(k, PMaxDischarge)) == None && LastValue(ws, IpuControl(k, PMaxCharge)) == None)
      && LastValue(ws, DcdcControl(DcdcVoltageSetpoint)) == Some(RealValue(800.0))
      && LastValue(ws, DcdcControl(WeightString(StringA))) == Some(RealValue(weights.0))
      && LastValue(ws, DcdcControl(WeightString(StringB))) == Some(RealValue(weights.1))
      && LastValue(ws, DcdcControl(WeightString(StringC))) == Some(RealValue(weights.2))
      && LastValue(ws, DcdcControl(StringControlMode)) == Some(RealValue(mode))
  {
    WriteIpuParametersLimits(n, weights, maxDischarge, maxCharge, mode, k);
    DcdcWritesEffect(IpuBlocks(n, maxDischarge, maxCharge), weights, mode);
  }

  /** The IPU limits after writeIPUParameters: string k's for IPU k <= n, none for IPUs above n. */
  lemma WriteIpuParametersLimits(n: InverterCount, weights: (real, real, real), maxDischarge: seq<real>, maxCharge: seq<real>, mode: real, k: nat)
    requires |maxDischarge| == 3 && |maxCharge| == 3 && 1 <= k
    ensures var ws := WriteIpuParameters(n, weights, maxDischarge, maxCharge, mode);
      && (k <= n ==> LastValue(ws, IpuControl(k, PMaxDischarge)) == Some(RealValue(-maxDischarge[k - 1])))
      && (k <= n ==> LastValue(ws, IpuControl(k, PMaxCharge)) == Some(RealValue(maxCharge[k - 1])))
      && (k > n ==> LastValue(ws, IpuControl(k, PMaxDischarge)) == None && LastValue(ws, IpuControl(k, PMaxCharge)) == None)
  {
    DcdcWritesChannels(weights, mode);
    IpuLimitsSurviveDcdc(n, IpuBlocks(n, maxDischarge, maxCharge), DcdcWrites(weights, mode), maxDischarge, maxCharge, k);
  }

  /** writeIPUParameters writes only IPU and DC/DC control parameters. */
  lemma WriteIpuParametersChannels(n: InverterCount, weights: (real, real, real), maxDischarge: seq<real>, maxCharge: seq<real>, mode: real)
    requires |maxDischarge| == 3 && |maxCharge| == 3
    ensures forall w :: w in WriteIpuParameters(n, weights, maxDischarge, maxCharge, mode) ==> w.channel.IpuControl? || w.channel.DcdcControl?
  {
    IpuBlocksChannels(n, maxDischarge, maxCharge);
    DcdcWritesChannels(weights, mode);
  }

  /** The DC/DC writes leave the IPU limits as the IPU blocks set them. */
  lemma IpuLimitsSurviveDcdc(n: InverterCount, blocks: seq<Write>, tail: seq<Write>, maxDischarge: seq<real>, maxCharge: seq<real>, k: nat)
    requires |maxDischarge| == 3 && |maxCharge| == 3 && 1 <= k
    requires blocks == IpuBlocks(n, maxDischarge, maxCharge)
    requires forall w :: w in tail ==> w.channel.DcdcControl?
    ensures k <= n ==> LastValue(blocks + tail, IpuControl(k, PMaxDischarge)) == Some(RealValue(-maxDischarge[k - 1]))
    ensures k <= n ==> LastValue(blocks + tail, IpuControl(k, PMaxCharge)) == Some(RealValue(maxCharge[k - 1]))
    ensures k > n ==> LastValue(blocks + tail, IpuControl(k, PMaxDischarge)) == None
    ensures k > n ==> LastValue(blocks + tail, IpuControl(k, PMaxCharge)) == None
  {
    LastValueSkipsSuffix(blocks, tail, IpuControl(k, PMaxDischarge));
    LastValueSkipsSuffix(blocks, tail, IpuControl(k, PMaxCharge));
    if k <= n {
      IpuBlocksLimits(n, maxDischarge, maxCharge, k);
    } else {
      IpuBlocksChannels(n, maxDischarge, maxCharge);
      LastValueWritten(blocks, IpuControl(k, PMaxDischarge));
      LastValueWritten(blocks, IpuControl(k, PMaxCharge));
    }
  }

  /** Each DC/DC channel ends with the value the DC/DC writes give it. */
  lemma DcdcWritesEffect(prefix: seq<Write>, weights: (real, real, real), mode: real)
    ensures var ws := prefix + DcdcWrites(weights, mode);
      && LastValue(ws, DcdcControl(DcdcVoltageSetpoint)) == Some(RealValue(800.0))
      && LastValue(ws, DcdcControl(WeightString(StringA))) == Some(RealValue(weights.0))
      && LastValue(ws, DcdcControl(WeightString(StringB))) == Some(RealValue(weights.1))
      && LastValue(ws, DcdcControl(WeightString(StringC))) == Some(RealValue(weights.2))
      && LastValue(ws, DcdcControl(StringControlMode)) == Some(RealValue(mode))
  {
    var tail := DcdcWrites(weights, mode);
    LastValueOfSuffix(prefix, tail, DcdcControl(DcdcVoltageSetpoint), 3);
    LastValueOfSuffix(prefix, tail, DcdcControl(WeightString(StringA)), 4);
    LastValueOfSuffix(prefix, tail, DcdcControl(WeightString(StringB)), 5);
    LastValueOfSuffix(prefix, tail, DcdcControl(WeightString(StringC)), 6);
    LastValueOfSuffix(prefix, tail, DcdcControl(StringControlMode), 7);
  }

  /** The weights doStringWeighting writes, as floats. */
  function RealWeights(w: (Int32, Int32, Int32)): (real, real, real) {
    (w.0 as real, w.1 as real, w.2 as real)
  }

  /** The string whose limits IPU k (1, 2 or 3) takes: A, B, C. */
  function IpuString(k: nat): BatteryString {
    if k == 1 then StringA else if k == 2 then StringB else StringC
  }

  /** The discharge limits of strings A, B, C for the three IPUs. */
  function DischargeLimits(st: Strings): (r: seq<real>)
    ensures |r| == 3
  {
    seq(3, i requires 0 <= i < 3 => MaxDischargePower(BatteryOf(st, IpuString(i + 1))) as real)
  }

  /** The charge limits of strings A, B, C for the three IPUs. */
  function ChargeLimits(st: Strings): (r: seq<real>)
    ensures |r| == 3
  {
    seq(3, i requires 0 <= i < 3 => MaxChargePower(BatteryOf(st, IpuString(i + 1))) as real)
  }

  /**
   * doStringWeighting: look up the three strings (a failing lookup throws),
   * compute weights and power limits, then write them with the presence mask
   * as string control mode; a mask of 0 throws before anything is written.
   */
  function DoStringWeighting(p: Int32, st: Strings, minSoc: MinSoc, n: InverterCount): (r: Option<seq<Write>>)
    ensures r.Some? <==>
      WeightingMode(st).Some? && !st.a.component.LookupFailed? && !st.b.component.LookupFailed? && !st.c.component.LookupFailed?
  {
    if st.a.component.LookupFailed? || st.b.component.LookupFailed? || st.c.component.LookupFailed? then None
    else
      var w := Weights(p, BatteryOf(st, StringA), BatteryOf(st, StringB), BatteryOf(st, StringC), minSoc);
      var mode := WeightingMode(st);
      if mode.None? then None
      else Some(WriteIpuParameters(n, RealWeights(w), DischargeLimits(st), ChargeLimits(st), mode.value as real))
  }

  /**
   * The writes of doStringWeighting: IPU k <= n gets string k's limits, the
   * discharge limit negated; IPUs above n are not written; the control mode is
   * the presence mask and the weights are those of the active power's sign.
   */
  lemma StringWeightingWrites(p: Int32, st: Strings, minSoc: MinSoc, n: InverterCount, k: nat)
    requires DoStringWeighting(p, st, minSoc, n).Some? && 1 <= k
    ensures var ws := DoStringWeighting(p, st, minSoc, n).value;
      var s := IpuString(k);
      var w := Weights(p, BatteryOf(st, StringA), BatteryOf(st, StringB), BatteryOf(st, StringC), minSoc);
      && (k <= n ==> LastValue(ws, IpuControl(k, PMaxDischarge)) == Some(RealValue(-(MaxDischargePower(BatteryOf(st, s)) as real))))
      && (k <= n ==> LastValue(ws, IpuControl(k, PMaxCharge)) == Some(RealValue(MaxChargePower(BatteryOf(st, s)) as real)))
      && (k > n ==> LastValue(ws, IpuControl(k, PMaxDischarge)) == None)
      && LastValue(ws, DcdcControl(StringControlMode)) == Some(RealValue(WeightingMode(st).value as real))
      && LastValue(ws, DcdcControl(WeightString(StringA))) == Some(RealValue(w.0 as real))
      && LastValue(ws, DcdcControl(WeightString(StringB))) == Some(RealValue(w.1 as real))
      && LastValue(ws, DcdcControl(WeightString(StringC))) == Some(RealValue(w.2 as real))
  {
    StringWeightingIpuWrites(p, st, minSoc, n, k);
    StringWeightingDcdcWrites(p, st, minSoc, n);
  }

  /** The IPU limits doStringWeighting writes. */
  lemma StringWeightingIpuWrites(p: Int32, st: Strings, minSoc: MinSoc, n: InverterCount, k: nat)
    requires DoStringWeighting(p, st, minSoc, n).Some? && 1 <= k
    ensures var ws := DoStringWeighting(p, st, minSoc, n).value;
      var s := IpuString(k);
      && (k <= n ==> LastValue(ws, IpuControl(k, PMaxDischarge)) == Some(RealValue(-(MaxDischargePower(BatteryOf(st, s)) as real))))
      && (k <= n ==> LastValue(ws, IpuControl(k, PMaxCharge)) == Some(RealValue(MaxChargePower(BatteryOf(st, s)) as real)))
      && (k > n ==> LastValue(ws, IpuControl(k, PMaxDischarge)) == None)
  {
    var w := Weights(p, BatteryOf(st, StringA), BatteryOf(st, StringB), BatteryOf(st, StringC), minSoc);
    StringWeightingValue(p, st, minSoc, n);
    StringLimitsWritten(DoStringWeighting(p, st, minSoc, n).value, n, RealWeights(w), st, WeightingMode(st).value as real, k);
  }

  /** writeIPUParameters with the string limits gives IPU k <= n string k's limits and leaves IPUs above n alone. */
  lemma StringLimitsWritten(ws: seq<Write>, n: InverterCount, weights: (real, real, real), st: Strings, mode: real, k: nat)
    requires ws == WriteIpuParameters(n, weights, DischargeLimits(st), ChargeLimits(st), mode) && 1 <= k
    ensures var s := IpuString(k);
      && (k <= n ==> LastValue(ws, IpuControl(k, PMaxDischarge)) == Some(RealValue(-(MaxDischargePower(BatteryOf(st, s)) as real))))
      && (k <= n ==> LastValue(ws, IpuControl(k, PMaxCharge)) == Some(RealValue(MaxChargePower(BatteryOf(st, s)) as real)))
      && (k > n ==> LastValue(ws, IpuControl(k, PMaxDischarge)) == None)
  {
    WriteIpuParametersLimits(n, weights, DischargeLimits(st), ChargeLimits(st), mode, k);
    if k <= n {
      LimitsOfIpu(st, k);
    }
  }

  /** The weights and control mode doStringWeighting writes. */
  lemma StringWeightingDcdcWrites(p: Int32, st: Strings, minSoc: MinSoc, n: InverterCount)
    requires DoStringWeighting(p, st, minSoc, n).Some?
    ensures var ws := DoStringWeighting(p, st, minSoc, n).value;
      var w := Weights(p, BatteryOf(st, StringA), BatteryOf(st, StringB), BatteryOf(st, StringC), minSoc);
      && LastValue(ws, DcdcControl(StringControlMode)) == Some(RealValue(WeightingMode(st).value as real))
      && LastValue(ws, DcdcControl(WeightString(StringA))) == Some(RealValue(w.0 as real))
      && LastValue(ws, DcdcControl(WeightString(StringB))) == Some(RealValue(w.1 as real))
      && LastValue(ws, DcdcControl(WeightString(StringC))) == Some(RealValue(w.2 as real))
  {
    var w := Weights(p, BatteryOf(st, StringA), BatteryOf(st, StringB), BatteryOf(st, StringC), minSoc);
    StringWeightingValue(p, st, minSoc, n);
    WriteIpuParametersEffect(n, RealWeights(w), DischargeLimits(st), ChargeLimits(st), WeightingMode(st).value as real, 1);
  }

  /** A successful doStringWeighting stages writeIPUParameters with its weights, the string limits and the mask. */
  lemma StringWeightingValue(p: Int32, st: Strings, minSoc: MinSoc, n: InverterCount)
    requires DoStringWeighting(p, st, minSoc, n).Some?
    ensures DoStringWeighting(p, st, minSoc, n).value
         == WriteIpuParameters(n, RealWeights(Weights(p, BatteryOf(st, StringA), BatteryOf(st, StringB), BatteryOf(st, StringC), minSoc)),
                               DischargeLimits(st), ChargeLimits(st), WeightingMode(st).value as real)
  {
  }

  /** IPU k takes the limits of string A, B or C for k = 1, 2, 3. */
  lemma LimitsOfIpu(st: Strings, k: nat)
    requires 1 <= k <= 3
    ensures var s := IpuString(k);
      && DischargeLimits(st)[k - 1] == MaxDischargePower(BatteryOf(st, s)) as real
      && ChargeLimits(st)[k - 1] == MaxChargePower(BatteryOf(st, s)) as real
  {
  }

  /**
   * The mask only checks which strings exist, not the weights: three strings
   * at or below their minimum SOC while discharging are accepted and all
   * three get weight 0.
   */
  lemma ZeroWeightsAccepted(bat: Battery, n: InverterCount)
    requires bat.soc == Some(0)
    ensures var slot := StringSlot(true, Found(Some(bat)));
      var r := DoStringWeighting(1, Strings(slot, slot, slot), MinSoc(0, 0, 0), n);
      && r.Some?
      && LastValue(r.value, DcdcControl(WeightString(StringA))) == Some(RealValue(0.0))
      && LastValue(r.value, DcdcControl(WeightString(StringB))) == Some(RealValue(0.0))
      && LastValue(r.value, DcdcControl(WeightString(StringC))) == Some(RealValue(0.0))
  {
    var slot := StringSlot(true, Found(Some(bat)));
    var st := Strings(slot, slot, slot);
    assert BatteryOf(st, StringA) == Some(bat) && BatteryOf(st, StringB) == Some(bat) && BatteryOf(st, StringC) == Some(bat);
    assert Weights(1, Some(bat), Some(bat), Some(bat), MinSoc(0, 0, 0)) == (0, 0, 0);
    assert WeightingMode(st) == Some(73);
    var r := DoStringWeighting(1, st, MinSoc(0, 0, 0), n);
    var blocks := IpuBlocks(n, DischargeLimits(st), ChargeLimits(st));
    assert r == Some(blocks + DcdcWrites((0.0, 0.0, 0.0), 73.0));
    DcdcWritesEffect(blocks, (0.0, 0.0, 0.0), 73.0);
  }

  // ---------------------------------------------------------------------
  // applyPower
  // ---------------------------------------------------------------------

  /**
   * The power factor applyPower computes: `-power / maxApparentPower` in Java
   * `int` arithmetic (negation, then division truncating toward zero), 0 when
   * the maximum is absent, and an ArithmeticException (None) when it is 0.
   */
  function PowerFactor(power: Int32, maxApparent: Option<Int32>): (r: Option<Int32>)
    ensures r.None? <==> maxApparent == Some(0)
    ensures maxApparent.None? ==> r == Some(0)
  {
    if maxApparent.None? then Some(0)
    else if maxApparent.value == 0 then None
    else Some(Div(Neg(power), maxApparent.value))
  }

  /**
   * The factor is computed before widening to float, so every power smaller
   * in magnitude than the maximum gives factor 0; exactly the maximum gives -1
   * (full charge is +1).
   */
  lemma PowerFactorTruncates(power: Int32, max: Int32)
    requires max > 0
    ensures -max < power < max ==> PowerFactor(power, Some(max)) == Some(0)
    ensures PowerFactor(max, Some(max)) == Some(-1)
    ensures PowerFactor(-max, Some(max)) == Some(1)
    ensures power != MinInt ==> PowerFactor(power, Some(max)).value == TruncDiv(-power, max)
  {
    if -max < power < max {
      SmallPowerFactor(power, max);
    }
    FullPowerFactor(max);
    if power != MinInt {
      assert Neg(power) == -power;
      TruncDivFits(-power, max);
    }
  }

  lemma SmallPowerFactor(power: Int32, max: Int32)
    requires max > 0 && -max < power < max
    ensures PowerFactor(power, Some(max)) == Some(0)
  {
    assert Neg(power) == -power;
    QuotientBounds(Abs(-power), max);
  }

  lemma FullPowerFactor(max: Int32)
    requires max > 0
    ensures PowerFactor(max, Some(max)) == Some(-1)
    ensures PowerFactor(-max, Some(max)) == Some(1)
  {
    assert Neg(max) == -max;
    assert Neg(-max) == max;
    assert Abs(max) / Abs(max) == 1;
  }

  /** Dividing by a positive int never leaves the int range. */
  lemma TruncDivFits(a: Int32, b: Int32)
    requires b > 0
    ensures MinInt <= TruncDiv(a, b) <= MaxInt
  {
    QuotientBounds(Abs(a), b);
  }

  /**
   * The factor lies in [-1, 1] exactly when the power is below twice the
   * maximum in magnitude, and is 0 exactly when it is below the maximum.
   * (Java negates `Integer.MIN_VALUE` to itself, which has the same magnitude.)
   */
  lemma PowerFactorRange(power: Int32, max: Int32)
    requires max > 0
    ensures var f := PowerFactor(power, Some(max)).value;
      && (f == 0 <==> Abs(power) < max)
      && (-1 <= f <= 1 <==> Abs(power) < 2 * max)
  {
    NegMagnitude(power);
    TruncDivFits(Neg(power), max);
    var f := PowerFactor(power, Some(max)).value;
    assert f == TruncDiv(Neg(power), max);
    assert Abs(f) == Abs(power) / max;
    SmallQuotient(Abs(power), max);
  }

  /** Java negation keeps the magnitude of every int, `Integer.MIN_VALUE` included. */
  lemma NegMagnitude(a: Int32)
    ensures Abs(Neg(a)) == Abs(a)
  {
    WrapQuotient(-(a as int));
    if a == MinInt {
      assert (-(a as int) - MinInt) / Modulus == 1;
    }
  }

  /** A non-negative quotient is 0 below the divisor and at most 1 below twice the divisor. */
  lemma SmallQuotient(x: nat, y: int)
    requires y >= 1
    ensures x / y == 0 <==> x < y
    ensures x / y <= 1 <==> x < 2 * y
  {
    var q, r := x / y, x % y;
    assert x == y * q + r && 0 <= r < y;
    QuotientBounds(x, y);
    if q >= 1 {
      ProductAbove(y, q);
    }
    if q >= 2 {
      ProductAbove(y, q - 2);
      assert y * q == y * (q - 2) + 2 * y;
    }
    if q == 1 {
      assert x == y + r;
    }
  }

  /**
   * What one applyPower call stages and whether it ends in an exception. The
   * writes staged before an exception stay staged.
   */
  datatype PowerOutcome = PowerOutcome(writes: seq<Write>, raised: bool)

  /**
   * applyPower: nothing unless the state machine is in normal operation; then
   * the string weighting, and the P and Q references. A maximum apparent power
   * of 0 throws after the weighting has been staged.
   */
  function ApplyPower(stateMachine: Option<StateMachine>, p: Int32, q: Int32, st: Strings, minSoc: MinSoc,
                      n: InverterCount, maxApparent: Option<Int32>): (r: PowerOutcome)
    ensures stateMachine.Some? && stateMachine.value != OngridNormalOperation ==> r == PowerOutcome([], false)
    ensures stateMachine.None? ==> r == PowerOutcome([], true)
  {
    match stateMachine
    case None => PowerOutcome([], true)
    case Some(sm) =>
      if sm != OngridNormalOperation then PowerOutcome([], false)
      else
        match DoStringWeighting(p, st, minSoc, n)
        case None => PowerOutcome([], true)
        case Some(w) =>
          var pf := PowerFactor(p, maxApparent);
          var qf := PowerFactor(q, maxApparent);
          if pf.None? || qf.None? then PowerOutcome(w, true)
          else PowerOutcome(w + [Write(CommandPRef, RealValue(pf.value as real)), Write(CommandQRef, RealValue(qf.value as real))], false)
  }

  /**
   * In normal operation applyPower completes exactly when the weighting does
   * and the maximum is not 0; the weighting's writes come first and stay
   * staged when the division throws, every other channel keeps the value the
   * weighting gave it, and P_REF and Q_REF end with the two power factors.
   */
  lemma ApplyPowerNormal(p: Int32, q: Int32, st: Strings, minSoc: MinSoc, n: InverterCount, max: Option<Int32>)
    ensures var r := ApplyPower(Some(OngridNormalOperation), p, q, st, minSoc, n, max);
      var w := DoStringWeighting(p, st, minSoc, n);
      && (!r.raised <==> w.Some? && max != Some(0))
      && (w.None? ==> r.writes == [])
      && (w.Some? ==> w.value <= r.writes)
      && (w.Some? && max == Some(0) ==> r.writes == w.value)
      && (!r.raised ==>
            && LastValue(r.writes, CommandPRef) == Some(RealValue(PowerFactor(p, max).value as real))
            && LastValue(r.writes, CommandQRef) == Some(RealValue(PowerFactor(q, max).value as real))
            && forall c :: c != CommandPRef && c != CommandQRef ==> LastValue(r.writes, c) == LastValue(w.value, c))
  {
    var r := ApplyPower(Some(OngridNormalOperation), p, q, st, minSoc, n, max);
    var w := DoStringWeighting(p, st, minSoc, n);
    if w.Some? && max != Some(0) {
      var tail := [Write(CommandPRef, RealValue(PowerFactor(p, max).value as real)), Write(CommandQRef, RealValue(PowerFactor(q, max).value as real))];
      assert r.writes == w.value + tail;
      LastValueOfSuffix(w.value, tail, CommandPRef, 0);
      LastValueOfSuffix(w.value, tail, CommandQRef, 1);
      forall c | c != CommandPRef && c != CommandQRef
        ensures LastValue(r.writes, c) == LastValue(w.value, c)
      {
        LastValueSkipsSuffix(w.value, tail, c);
      }
    }
  }

  /** In normal operation the P reference written is the truncated factor, so below the maximum it is always 0. */
  lemma ApplyPowerReference(p: Int32, q: Int32, st: Strings, minSoc: MinSoc, n: InverterCount, max: Int32)
    requires max > 0 && -max < p < max
    requires DoStringWeighting(p, st, minSoc, n).Some?
    ensures var r := ApplyPower(Some(OngridNormalOperation), p, q, st, minSoc, n, Some(max));
      !r.raised && LastValue(r.writes, CommandPRef) == Some(RealValue(0.0))
  {
    PowerFactorTruncates(p, max);
    ApplyPowerNormal(p, q, st, minSoc, n, Some(max));
  }
}
