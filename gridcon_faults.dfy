/**
 * Fault classification of the Gridcon driver: the table from fault code to
 * fault channel that the constructor fills from the two fault enumerations
 * (fillErrorChannelMap), and the lookup of the active fault from the raw
 * CCU error code (getErrorChannel).
 */
module Faults {
  import opened Wrappers
  import opened JavaInt
  import opened GridconTypes

  /** The table a sequence of `put(e.code, e)` calls leaves behind: a later entry overwrites an earlier one. */
  function TableOf(entries: seq<ErrorChannel>): (table: map<int, ErrorChannel>)
    ensures entries != [] ==> entries[|entries| - 1].code in table && table[entries[|entries| - 1].code] == entries[|entries| - 1]
    ensures entries == [] ==> table == map[]
    decreases |entries|
  {
    if entries == [] then map[]
    else
      var last := entries[|entries| - 1];
      TableOf(entries[..|entries| - 1])[last.code := last]
  }

  /** The table holds a key for exactly the codes of the entries, and each key maps to an entry carrying that code. */
  lemma {:induction false} TableOfContents(entries: seq<ErrorChannel>)
    ensures forall c :: c in TableOf(entries) <==> exists e :: e in entries && e.code == c
    ensures forall c :: c in TableOf(entries) ==> TableOf(entries)[c].code == c && TableOf(entries)[c] in entries
    decreases |entries|
  {
    if entries != [] {
      var init := entries[..|entries| - 1];
      TableOfContents(init);
      assert entries == init + [entries[|entries| - 1]];
    }
  }

  /** Filling from `a` and then from `b` is the table of `a` overridden by the table of `b`. */
  lemma {:induction false} TableOfAppend(a: seq<ErrorChannel>, b: seq<ErrorChannel>)
    ensures TableOf(a + b) == TableOf(a) + TableOf(b)
    decreases |b|
  {
    if b == [] {
      assert a + b == a;
    } else {
      var init := b[..|b| - 1];
      assert (a + b)[..|a + b| - 1] == a + init;
      TableOfAppend(a, init);
    }
  }

  /**
   * On a code that occurs in both enumerations the ErrorCodeChannelId1 entry
   * wins, and a code that occurs only in ErrorCodeChannelId keeps its entry.
   */
  lemma SecondFamilyWins(codes: seq<ErrorChannel>, codes1: seq<ErrorChannel>, c: int)
    requires c in TableOf(codes) || c in TableOf(codes1)
    ensures c in TableOf(codes + codes1)
    ensures c in TableOf(codes1) ==> TableOf(codes + codes1)[c] == TableOf(codes1)[c] && TableOf(codes + codes1)[c] in codes1
    ensures c !in TableOf(codes1) ==> TableOf(codes + codes1)[c] == TableOf(codes)[c] && TableOf(codes + codes1)[c] in codes
  {
    TableOfAppend(codes, codes1);
    TableOfContents(codes);
    TableOfContents(codes1);
  }

  /** fillErrorChannelMap: one `put` per constant of ErrorCodeChannelId, then one per constant of ErrorCodeChannelId1. */
  method FillErrorChannelMap(codes: seq<ErrorChannel>, codes1: seq<ErrorChannel>) returns (ids: map<int, ErrorChannel>)
    ensures ids == TableOf(codes + codes1)
  {
    ids := map[];
    var i := 0;
    while i < |codes|
      invariant 0 <= i <= |codes|
      invariant ids == TableOf(codes[..i])
    {
      assert codes[..i + 1][..i] == codes[..i];
      ids := ids[codes[i].code := codes[i]];
      i := i + 1;
    }
    assert codes[..i] == codes;
    assert codes + codes1[..0] == codes;
    var j := 0;
    while j < |codes1|
      invariant 0 <= j <= |codes1|
      invariant ids == TableOf(codes + codes1[..j])
    {
      assert (codes + codes1[..j + 1])[..|codes| + j] == codes + codes1[..j];
      ids := ids[codes1[j].code := codes1[j]];
      j := j + 1;
    }
    assert codes1[..j] == codes1;
  }

  /** What getErrorChannel finds: no fault, the fault channel of the code, or a code the table does not know. */
  datatype ErrorLookup = NoError | Fault(channel: ErrorChannel) | UnknownCode(key: int)

  /**
   * getErrorChannel: an absent or zero CCU_ERROR_CODE means no fault; otherwise
   * the table key is the raw code shifted right by eight bits. An unknown key
   * makes `this.channel(null)` throw, which UnknownCode records.
   */
  function GetErrorChannel(ids: map<int, ErrorChannel>, raw: Option<Int32>): (r: ErrorLookup)
    ensures r.NoError? <==> raw == None || raw == Some(0)
    ensures r.UnknownCode? ==> raw.Some? && r.key !in ids && r.key * 256 <= raw.value < r.key * 256 + 256
    ensures r.Fault? ==> exists key :: key in ids && ids[key] == r.channel && key * 256 <= raw.value < key * 256 + 256
  {
    if raw.Some? && raw.value != 0 then
      var key := ShiftRight(raw.value, 8);
      if key in ids then Fault(ids[key]) else UnknownCode(key)
    else NoError
  }

  /**
   * With the table the constructor builds, a fault found for a raw code is an
   * entry of one of the two enumerations whose code is the raw code's upper
   * bits, and an unknown code is one no entry carries.
   */
  lemma LookupInFilledTable(codes: seq<ErrorChannel>, codes1: seq<ErrorChannel>, raw: Option<Int32>)
    ensures var r := GetErrorChannel(TableOf(codes + codes1), raw);
      && (r.Fault? ==> r.channel in codes + codes1 && r.channel.code * 256 <= raw.value < r.channel.code * 256 + 256)
      && (r.UnknownCode? ==> forall e :: e in codes + codes1 ==> e.code != r.key)
  {
    TableOfContents(codes + codes1);
  }
}
