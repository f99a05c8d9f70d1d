/**
 * The date and time words the Gridcon driver sends to the CCU
 * (writeDateAndTime, convertToInteger): four bytes packed little-endian into
 * one Java `int`.
 */
module TimeSync {
  import opened JavaInt
  import opened GridconTypes

  /** A local date and time as the driver reads it; dayOfWeek is the enum ordinal (Monday = 0). */
  datatype DateTime = DateTime(year: int, month: int, day: int, dayOfWeek: int, hour: int, minute: int, second: int)

  predicate ValidDateTime(t: DateTime) {
    && 1 <= t.month <= 12 && 1 <= t.day <= 31 && 0 <= t.dayOfWeek <= 6
    && 0 <= t.hour <= 23 && 0 <= t.minute <= 59 && 0 <= t.second <= 59
  }

  predicate IsBytes(bs: seq<int>) {
    forall i :: 0 <= i < |bs| ==> 0 <= bs[i] < 256
  }

  /** Java's `(byte) x` as the bit pattern BitSet.valueOf reads: x modulo 256. */
  function ByteOf(x: int): (b: int)
    ensures 0 <= b < 256 && (x - b) % 256 == 0
    ensures 0 <= x < 256 ==> b == x
  {
    x % 256
  }

  /** The number whose little-endian bytes are `bs`. */
  function LittleEndian(bs: seq<int>): int
    decreases |bs|
  {
    if bs == [] then 0 else bs[0] + 256 * LittleEndian(bs[1..])
  }

  /** The `n` low bytes of `v`, least significant first. */
  function BytesOf(v: int, n: nat): (bs: seq<int>)
    ensures |bs| == n && IsBytes(bs)
    decreases n
  {
    if n == 0 then [] else [v % 256] + BytesOf(v / 256, n - 1)
  }

  /** Splitting a little-endian number into bytes gives the bytes back. */
  lemma {:induction false} BytesRoundTrip(bs: seq<int>)
    requires IsBytes(bs)
    ensures BytesOf(LittleEndian(bs), |bs|) == bs
    ensures 0 <= LittleEndian(bs) < Pow2(8 * |bs|)
    decreases |bs|
  {
    if bs != [] {
      var rest := LittleEndian(bs[1..]);
      BytesRoundTrip(bs[1..]);
      assert (bs[0] + 256 * rest) % 256 == bs[0];
      assert (bs[0] + 256 * rest) / 256 == rest;
      Pow2Bytes(|bs| - 1);
    }
  }

  lemma Pow2Bytes(n: nat)
    ensures Pow2(8 * (n + 1)) == 256 * Pow2(8 * n)
  {
    var m := 8 * n;
    assert Pow2(m + 1) == 2 * Pow2(m);
    assert Pow2(m + 2) == 2 * Pow2(m + 1);
    assert Pow2(m + 3) == 2 * Pow2(m + 2);
    assert Pow2(m + 4) == 2 * Pow2(m + 3);
    assert Pow2(m + 5) == 2 * Pow2(m + 4);
    assert Pow2(m + 6) == 2 * Pow2(m + 5);
    assert Pow2(m + 7) == 2 * Pow2(m + 6);
    assert Pow2(m + 8) == 2 * Pow2(m + 7);
  }

  /**
   * convertToInteger(BitSet.valueOf(bs)): the first 64-bit word of the bit
   * set (0 for an empty set) narrowed to `int`, which keeps its low 32 bits.
   */
  function ConvertToInteger(bs: seq<int>): (r: Int32)
    requires IsBytes(bs)
    ensures |bs| >= 4 ==> r == Wrap(LittleEndian(bs[..4]))
  {
    var word := if |bs| <= 8 then bs else bs[..8];
    if |word| >= 4 then
      LittleEndianLowWord(word);
      assert word[..4] == bs[..4];
      Wrap(LittleEndian(word))
    else Wrap(LittleEndian(word))
  }

  /** The bytes after the fourth add a multiple of 2^32, which narrowing to `int` drops. */
  lemma LittleEndianLowWord(bs: seq<int>)
    requires |bs| >= 4
    ensures Wrap(LittleEndian(bs)) == Wrap(LittleEndian(bs[..4]))
  {
    var b1, b2, b3, b4 := bs[1..], bs[2..], bs[3..], bs[4..];
    var low := bs[..4];
    assert b1[1..] == b2 && b2[1..] == b3 && b3[1..] == b4;
    assert low[1..][1..][1..][1..] == [];
    assert LittleEndian(low[1..][1..][1..]) == bs[3];
    assert LittleEndian(low[1..][1..]) == bs[2] + 256 * bs[3];
    assert LittleEndian(low[1..]) == bs[1] + 256 * bs[2] + 65536 * bs[3];
    assert LittleEndian(low) == bs[0] + 256 * bs[1] + 65536 * bs[2] + 16777216 * bs[3];
    var high := LittleEndian(b4);
    assert LittleEndian(b3) == bs[3] + 256 * high;
    assert LittleEndian(b2) == bs[2] + 256 * bs[3] + 65536 * high;
    assert LittleEndian(b1) == bs[1] + 256 * bs[2] + 65536 * bs[3] + 16777216 * high;
    assert LittleEndian(bs) == LittleEndian(low) + high * Modulus;
    WrapShift(LittleEndian(low), high);
  }

  /** Four bytes whose last is below 128 fit an int and are packed as b0 + 2^8 b1 + 2^16 b2 + 2^24 b3. */
  lemma FourBytes(bs: seq<int>)
    requires |bs| == 4 && IsBytes(bs) && bs[3] < 128
    ensures ConvertToInteger(bs) == LittleEndian(bs)
    ensures LittleEndian(bs) == bs[0] + 256 * bs[1] + 65536 * bs[2] + 16777216 * bs[3]
  {
    var b1, b2, b3 := bs[1..], bs[2..], bs[3..];
    assert b1[1..] == b2 && b2[1..] == b3 && b3[1..] == [];
    assert LittleEndian(b3) == bs[3];
    assert LittleEndian(b2) == bs[2] + 256 * bs[3];
    assert LittleEndian(b1) == bs[1] + 256 * bs[2] + 65536 * bs[3];
  }

  /** The date word: day, weekday ordinal, year - 2000 and month. */
  function DateBytes(t: DateTime): (bs: seq<int>)
    ensures IsBytes(bs) && |bs| == 4
  {
    [ByteOf(t.day), ByteOf(t.dayOfWeek), ByteOf(t.year - 2000), ByteOf(t.month)]
  }

  /** The time word: second, an unused zero byte, hour and minute. */
  function TimeBytes(t: DateTime): (bs: seq<int>)
    ensures IsBytes(bs) && |bs| == 4
  {
    [ByteOf(t.second), 0, ByteOf(t.hour), ByteOf(t.minute)]
  }

  /** writeDateAndTime: stage the date word, then the time word. */
  function WriteDateAndTime(t: DateTime): (ws: seq<Write>)
    ensures |ws| == 2 && ws[0].channel == TimeSyncDate && ws[1].channel == TimeSyncTime
  {
    [Write(TimeSyncDate, IntValue(ConvertToInteger(DateBytes(t)))),
     Write(TimeSyncTime, IntValue(ConvertToInteger(TimeBytes(t))))]
  }

  /**
   * For a valid date the date word is day + 2^8 weekday + 2^16 (year - 2000
   * modulo 256) + 2^24 month, and its four bytes give those fields back.
   */
  lemma DateWord(t: DateTime)
    requires ValidDateTime(t)
    ensures var d := WriteDateAndTime(t)[0].value.i;
      && d == t.day + 256 * t.dayOfWeek + 65536 * ((t.year - 2000) % 256) + 16777216 * t.month
      && BytesOf(d, 4) == [t.day, t.dayOfWeek, (t.year - 2000) % 256, t.month]
      && d > 0
  {
    FourBytes(DateBytes(t));
    BytesRoundTrip(DateBytes(t));
  }

  /**
   * For a valid time the time word is second + 2^16 hour + 2^24 minute, and
   * its four bytes give second, 0, hour and minute back.
   */
  lemma TimeWord(t: DateTime)
    requires ValidDateTime(t)
    ensures var w := WriteDateAndTime(t)[1].value.i;
      && w == t.second + 65536 * t.hour + 16777216 * t.minute
      && BytesOf(w, 4) == [t.second, 0, t.hour, t.minute]
      && w >= 0
  {
    FourBytes(TimeBytes(t));
    BytesRoundTrip(TimeBytes(t));
  }
}
