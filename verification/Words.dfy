/** Fixed-width machine words, the wrapping millisecond clock and C's integer
    division and casts, as the firmware and the host both use them. */
module Words {

  const TWO_16 := 0x1_0000
  const TWO_31 := 0x8000_0000
  const TWO_32 := 0x1_0000_0000

  type u8 = x: int | 0 <= x < 0x100
  type u16 = x: int | 0 <= x < 0x1_0000
  type u32 = x: int | 0 <= x < 0x1_0000_0000
  type i32 = x: int | -0x8000_0000 <= x < 0x8000_0000

  /** uint32 subtraction: the true difference, wrapped once. */
  function Sub32(a: u32, b: u32): u32 {
    if b <= a then a - b else a - b + TWO_32
  }

  /** uint32 addition: the true sum, wrapped once. */
  function Add32(a: u32, b: u32): u32 {
    if a + b < TWO_32 then a + b else a + b - TWO_32
  }

  /** The cast `(int32_t)` of a 32-bit pattern (two's complement). */
  function AsI32(x: u32): i32 {
    if x < TWO_31 then x else x - TWO_32
  }

  /** The 32-bit pattern of an int32, the inverse of `AsI32`. */
  function AsU32(x: i32): u32 {
    if 0 <= x then x else x + TWO_32
  }

  /** The firmware's `tick_is_after`: `(int32_t)(candidate - reference) > 0`. */
  predicate TickAfter(candidate: u32, reference: u32) {
    AsI32(Sub32(candidate, reference)) > 0
  }

  /** The host's `_tick_after`, on Python's unbounded integers. */
  predicate HostTickAfter(candidate: u32, reference: u32) {
    var difference := (candidate - reference) % TWO_32;
    0 < difference < TWO_31
  }

  /** Both languages order ticks alike. */
  lemma TickOrdersAgree(candidate: u32, reference: u32)
    ensures HostTickAfter(candidate, reference) <==> TickAfter(candidate, reference)
  {
    if reference <= candidate {
      assert (candidate - reference) % TWO_32 == candidate - reference;
    } else {
      assert (candidate - reference) % TWO_32 == candidate - reference + TWO_32;
    }
  }

  /** Milliseconds from `base` to `tick`, reading the clock forwards. Inside a
      half-window of `base` it turns every tick comparison into `<`. */
  function Since(base: u32, tick: u32): u32 {
    Sub32(tick, base)
  }

  /** The half-window law: ticks less than 2^31 ms past a common base compare
      like their distances from it, and subtract exactly. */
  lemma HalfWindow(base: u32, a: u32, b: u32)
    requires Since(base, a) < TWO_31 && Since(base, b) < TWO_31
    ensures TickAfter(a, b) <==> Since(base, b) < Since(base, a)
    ensures a == b <==> Since(base, a) == Since(base, b)
    ensures Since(base, b) <= Since(base, a) ==>
              Sub32(a, b) == Since(base, a) - Since(base, b)
  {
  }

  /** Outside a half-window the order is not transitive: three ticks can each
      come after the next one round the clock. */
  lemma OrderIsNotTransitive()
    ensures TickAfter(0x6000_0000, 0) && TickAfter(0xC000_0000, 0x6000_0000)
    ensures TickAfter(0, 0xC000_0000)
  {
  }

  /** C's `/` on signed operands: it rounds toward zero. */
  function TruncDiv(numerator: int, denominator: int): int
    requires 0 < denominator
  {
    if 0 <= numerator then numerator / denominator else -((-numerator) / denominator)
  }

  /** The firmware's `round_divide`: nearest, halves away from zero. */
  function RoundDivide(numerator: int, denominator: int): int
    requires 0 < denominator
  {
    if 0 <= numerator then (numerator + denominator / 2) / denominator
    else -((-numerator + denominator / 2) / denominator)
  }

  /** `|left - right|`, as the firmware computes it in 64 bits. */
  function AbsDiff(left: i32, right: i32): (d: u32)
    ensures d == 0 <==> left == right
  {
    if left < right then right - left else left - right
  }

  /** Little-endian words. */
  function ReadU16(b: seq<u8>, at: nat): u16
    requires at + 2 <= |b|
  {
    (b[at] as int) + (b[at + 1] as int) * 0x100
  }

  function ReadU32(b: seq<u8>, at: nat): u32
    requires at + 4 <= |b|
  {
    (b[at] as int) + (b[at + 1] as int) * 0x100
    + (b[at + 2] as int) * 0x1_0000 + (b[at + 3] as int) * 0x100_0000
  }

  function WriteU16(v: u16): (b: seq<u8>)
    ensures |b| == 2 && ReadU16(b, 0) == v
  {
    [v % 0x100, v / 0x100]
  }

  function WriteU32(v: u32): (b: seq<u8>)
    ensures |b| == 4 && ReadU32(b, 0) == v
  {
    BytesOf(v);
    [v % 0x100, v / 0x100 % 0x100, v / 0x1_0000 % 0x100, v / 0x100_0000]
  }

  /** A word is the sum of its bytes in their places. */
  lemma BytesOf(v: u32)
    ensures v / 0x100_0000 < 0x100
    ensures v == v % 0x100 + v / 0x100 % 0x100 * 0x100 + v / 0x1_0000 % 0x100 * 0x1_0000 + v / 0x100_0000 * 0x100_0000
  {
    var q1, q2, q3 := v / 0x100, v / 0x1_0000, v / 0x100_0000;
    assert v == q1 * 0x100 + v % 0x100;
    assert q1 / 0x100 == q2 && q1 == q2 * 0x100 + q1 % 0x100;
    assert q2 / 0x100 == q3 && q2 == q3 * 0x100 + q2 % 0x100;
  }

  /** A word depends only on the bytes it covers. */
  lemma ReadU32At(b: seq<u8>, at: nat, word: seq<u8>)
    requires |word| == 4 && at + 4 <= |b| && b[at..at + 4] == word
    ensures ReadU32(b, at) == ReadU32(word, 0)
  {
    forall k: nat | k < 4
      ensures b[at + k] == word[k]
    {
      assert b[at..at + 4][k] == b[at + k];
    }
  }

  lemma ReadU16At(b: seq<u8>, at: nat, word: seq<u8>)
    requires |word| == 2 && at + 2 <= |b| && b[at..at + 2] == word
    ensures ReadU16(b, at) == ReadU16(word, 0)
  {
    assert b[at..at + 2][0] == b[at] && b[at..at + 2][1] == b[at + 1];
  }

  /** Two byte strings that spell the same little-endian words are the same. */
  lemma WordsDetermine16(d: seq<u8>, at: nat)
    requires at + 2 <= |d|
    ensures d[at..at + 2] == WriteU16(ReadU16(d, at))
  {
  }

  lemma WordsDetermine32(d: seq<u8>, at: nat)
    requires at + 4 <= |d|
    ensures d[at..at + 4] == WriteU32(ReadU32(d, at))
  {
    FourBytes(d[at], d[at + 1], d[at + 2], d[at + 3]);
    assert d[at..at + 4] == [d[at], d[at + 1], d[at + 2], d[at + 3]];
  }

  lemma FourBytes(b0: u8, b1: u8, b2: u8, b3: u8)
    ensures ReadU32([b0, b1, b2, b3], 0) == b0 + 0x100 * b1 + 0x1_0000 * b2 + 0x100_0000 * b3
    ensures WriteU32(b0 + 0x100 * b1 + 0x1_0000 * b2 + 0x100_0000 * b3) == [b0, b1, b2, b3]
  {
    hide WriteU32;
    var w: u32 := b0 + 0x100 * b1 + 0x1_0000 * b2 + 0x100_0000 * b3;
    Digit(b0, b1 + 0x100 * b2 + 0x1_0000 * b3);
    Digit(b1, b2 + 0x100 * b3);
    Digit(b2, b3);
    assert w / 0x1_0000 == (w / 0x100) / 0x100;
    assert w / 0x100_0000 == (w / 0x1_0000) / 0x100;
    WriteU32Digits(w);
  }

  lemma WriteU32Digits(w: u32)
    ensures WriteU32(w) == [w % 0x100, w / 0x100 % 0x100, w / 0x1_0000 % 0x100, w / 0x100_0000]
  {
  }

  lemma Digit(low: u8, high: int)
    ensures (low + 0x100 * high) / 0x100 == high && (low + 0x100 * high) % 0x100 == low
  {
  }
}
