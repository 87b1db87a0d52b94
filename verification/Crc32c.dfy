/** CRC-32C (Castagnoli), reflected and bit by bit, as section 12.1 of RFC 3720
    defines it, and the bursts it cannot miss. */
module Crc32c {
  import opened Words

  const POLYNOMIAL: bv32 := 0x82F6_3B78

  function Xor(x: bv32, y: bv32): bv32 {
    x ^ y
  }

  /** The byte as the low byte of a word. */
  function Low(b: u8): bv32 {
    b as bv32
  }

  /** The word moved up by one byte. */
  function Up(w: bv32): bv32 {
    w << 8
  }

  function Complement(x: bv32): bv32 {
    !x
  }

  function Half(x: bv32): bv32 {
    x >> 1
  }

  /** One bit: shift right, and fold the polynomial in if a one fell out. */
  function Shift(x: bv32): bv32 {
    Half(x) ^ (POLYNOMIAL & (0 - (x & 1)))
  }

  function Shifts(x: bv32, n: nat): bv32
    decreases n
  {
    if n == 0 then x else Shifts(Shift(x), n - 1)
  }

  function Feed(crc: bv32, byte: u8): bv32 {
    Shifts(Xor(crc, Low(byte)), 8)
  }

  function CrcFrom(crc: bv32, data: seq<u8>): bv32
    decreases |data|
  {
    if data == [] then crc else CrcFrom(Feed(crc, data[0]), data[1..])
  }

  function Crc(data: seq<u8>): bv32 {
    Complement(CrcFrom(0xFFFF_FFFF, data))
  }

  method FeedLoop(start: bv32) returns (crc: bv32)
    ensures crc == Shifts(start, 8)
  {
    crc := start;
    for bit := 0 to 8
      invariant Shifts(start, 8) == Shifts(crc, 8 - bit)
    {
      var mask := 0 - (crc & 1);
      crc := (crc >> 1) ^ (POLYNOMIAL & mask);
    }
  }

  /** The nested loops that compute it. */
  method CrcLoop(data: seq<u8>) returns (crc: bv32)
    ensures crc == Crc(data)
  {
    hide Shifts, Xor, Low, Complement;
    crc := 0xFFFF_FFFF;
    assert data[0..] == data;
    for index := 0 to |data|
      invariant CrcFrom(0xFFFF_FFFF, data) == CrcFrom(crc, data[index..])
    {
      assert data[index..][1..] == data[index + 1..];
      crc := FeedLoop(Xor(crc, Low(data[index])));
    }
    crc := Complement(crc);
  }

  // ---- The host's loops, on integers masked to 32 bits ----

  /** A 32-bit word inside Python's wider integer. */
  function Wide(x: bv32): bv64 {
    x as bv64
  }

  function WideXor(x: bv64, y: bv64): bv64 {
    x ^ y
  }

  function WideLow(b: u8): bv64 {
    b as bv64
  }

  function Masked(x: bv64): bv64 {
    x & 0xFFFF_FFFF
  }

  function HostShift(x: bv64): bv64 {
    ((x >> 1) ^ (0x82F6_3B78 & ((0 - (x & 1)) & 0xFFFF_FFFF))) & 0xFFFF_FFFF
  }

  function HostXor(x: bv64, b: u8): bv64 {
    WideXor(x, WideLow(b))
  }

  lemma XorWidens(x: bv32, y: bv32)
    ensures WideXor(Wide(x), Wide(y)) == Wide(Xor(x, y))
  {
  }

  lemma MaskWidens(x: bv32)
    ensures Masked(Wide(x)) == Wide(x)
  {
  }

  lemma HostShiftOdd(x: bv32)
    requires Odd(x)
    ensures HostShift(Wide(x)) == Masked(WideXor(Wide(Half(x)), Wide(POLYNOMIAL)))
  {
  }

  function WideHalf(y: bv64): bv64 {
    y >> 1
  }

  lemma WideEven(y: bv64)
    requires y & 1 == 0
    ensures HostShift(y) == Masked(WideHalf(y))
  {
  }

  lemma RawHalfWidens(x: bv32)
    ensures Wide(x) >> 1 == Wide(x >> 1)
  {
  }

  lemma HalfWidens(x: bv32)
    ensures WideHalf(Wide(x)) == Wide(Half(x))
  {
    hide Wide;
    RawHalfWidens(x);
  }

  lemma BitWidens(x: bv32)
    requires x & 1 == 0
    ensures Wide(x) & 1 == 0
  {
  }

  lemma HostShiftEven(x: bv32)
    requires x & 1 == 0
    ensures HostShift(Wide(x)) == Wide(Half(x))
  {
    hide HostShift, Wide, Half, Masked, WideHalf;
    BitWidens(x);
    WideEven(Wide(x));
    HalfWidens(x);
    MaskWidens(Half(x));
  }

  lemma ShiftOddXor(x: bv32)
    requires Odd(x)
    ensures Shift(x) == Xor(Half(x), POLYNOMIAL)
  {
  }

  lemma HostShiftAgrees(x: bv32)
    ensures HostShift(Wide(x)) == Wide(Shift(x))
  {
    hide HostShift, Wide, Shift, Odd, WideXor, Masked, Xor;
    if Odd(x) {
      HostShiftOdd(x);
      ShiftOddXor(x);
      XorWidens(Half(x), POLYNOMIAL);
    } else {
      EvenBit(x);
      HostShiftEven(x);
      ShiftEven(x);
    }
    MaskWidens(Shift(x));
  }

  lemma LowWidens(b: u8)
    ensures WideLow(b) == Wide(Low(b))
  {
    hide Wide;
    WideByte(b);
    WideWide(b as bv8);
    ThroughBv8(b);
  }

  lemma WideByte(b: u8)
    ensures b as bv64 == (b as bv8) as bv64
  {
  }

  lemma WideWide(y: bv8)
    ensures y as bv64 == Wide(y as bv32)
  {
  }

  lemma HostXorAgrees(x: bv32, b: u8)
    ensures HostXor(Wide(x), b) == Wide(Xor(x, Low(b)))
  {
    hide Wide, Low, WideLow, WideXor, Xor;
    LowWidens(b);
    XorWidens(x, Low(b));
  }

  lemma HostComplementAgrees(x: bv32)
    ensures !Wide(x) & 0xFFFF_FFFF == Wide(!x)
  {
  }

  method HostFeed(start: bv64, ghost word: bv32) returns (crc: bv64)
    requires start == Wide(word)
    ensures crc == Wide(Shifts(word, 8))
  {
    hide HostShift, Wide, Shift;
    crc := start;
    ghost var w := word;
    for bit := 0 to 8
      invariant crc == Wide(w) && Shifts(word, 8) == Shifts(w, 8 - bit)
    {
      HostShiftAgrees(w);
      crc := HostShift(crc);
      w := Shift(w);
    }
  }

  /** The host computes the same CRC. */
  method HostCrc(data: seq<u8>) returns (crc: bv64)
    ensures crc == Wide(Crc(data))
  {
    hide HostXor, Wide, Shifts, Xor, Low;
    crc := 0xFFFF_FFFF;
    ghost var w: bv32 := 0xFFFF_FFFF;
    AllOnes();
    assert data[0..] == data;
    for index := 0 to |data|
      invariant crc == Wide(w) && CrcFrom(0xFFFF_FFFF, data) == CrcFrom(w, data[index..])
    {
      assert data[index..][1..] == data[index + 1..];
      HostXorAgrees(w, data[index]);
      crc := HostFeed(HostXor(crc, data[index]), Xor(w, Low(data[index])));
      w := Feed(w, data[index]);
    }
    HostComplementAgrees(w);
    crc := !crc & 0xFFFF_FFFF;
  }

  lemma AllOnes()
    ensures Wide(0xFFFF_FFFF) == 0xFFFF_FFFF
  {
  }

  // ---- Algebra of the step ----

  lemma ShiftInjective(x: bv32, y: bv32)
    requires Shift(x) == Shift(y)
    ensures x == y
  {
  }

  predicate Odd(x: bv32) {
    x & 1 == 1
  }

  lemma ShiftOdd(x: bv32)
    requires Odd(x)
    ensures Shift(x) == Half(x) ^ POLYNOMIAL
  {
  }

  lemma ShiftEven(x: bv32)
    requires !Odd(x)
    ensures Shift(x) == Half(x)
  {
  }

  lemma OddOdd(x: bv32, y: bv32)
    requires Odd(x) && Odd(y)
    ensures !Odd(Xor(x, y)) && Half(Xor(x, y)) == Xor(Half(x) ^ POLYNOMIAL, Half(y) ^ POLYNOMIAL)
  {
  }

  lemma OddEven(x: bv32, y: bv32)
    requires Odd(x) && !Odd(y)
    ensures Odd(Xor(x, y)) && (Half(Xor(x, y))) ^ POLYNOMIAL == Xor(Half(x) ^ POLYNOMIAL, Half(y))
  {
  }

  lemma EvenSum(x: bv32, y: bv32)
    requires x & 1 == 0 && y & 1 == 0
    ensures (x ^ y) & 1 == 0
  {
  }

  lemma EvenBit(x: bv32)
    ensures !Odd(x) <==> x & 1 == 0
  {
  }

  lemma HalfOfSum(x: bv32, y: bv32)
    ensures Half(Xor(x, y)) == Xor(Half(x), Half(y))
  {
  }

  lemma EvenEven(x: bv32, y: bv32)
    requires !Odd(x) && !Odd(y)
    ensures !Odd(Xor(x, y)) && Half(Xor(x, y)) == Xor(Half(x), Half(y))
  {
    hide Odd;
    EvenBit(x);
    EvenBit(y);
    EvenBit(Xor(x, y));
    EvenSum(x, y);
    HalfOfSum(x, y);
  }

  lemma XorSwaps(x: bv32, y: bv32)
    ensures Xor(x, y) == Xor(y, x)
  {
  }

  lemma OddFirst(x: bv32, y: bv32)
    requires Odd(x)
    ensures Shift(Xor(x, y)) == Xor(Shift(x), Shift(y))
  {
    hide Shift, Xor, Odd;
    ShiftOdd(x);
    if Odd(y) {
      ShiftOdd(y);
      OddOdd(x, y);
      ShiftEven(Xor(x, y));
    } else {
      ShiftEven(y);
      OddEven(x, y);
      ShiftOdd(Xor(x, y));
    }
  }

  lemma ShiftLinear(x: bv32, y: bv32)
    ensures Shift(Xor(x, y)) == Xor(Shift(x), Shift(y))
  {
    hide Shift, Xor, Odd;
    if Odd(x) {
      OddFirst(x, y);
    } else if Odd(y) {
      OddFirst(y, x);
      XorSwaps(x, y);
      XorSwaps(Shift(x), Shift(y));
    } else {
      ShiftEven(x);
      ShiftEven(y);
      EvenEven(x, y);
      ShiftEven(Xor(x, y));
    }
  }

  lemma {:induction false} ShiftsInjective(x: bv32, y: bv32, n: nat)
    requires Shifts(x, n) == Shifts(y, n)
    ensures x == y
    decreases n
  {
    hide Shift;
    if n > 0 {
      ShiftsInjective(Shift(x), Shift(y), n - 1);
      ShiftInjective(x, y);
    }
  }

  lemma {:induction false} ShiftsLinear(x: bv32, y: bv32, n: nat)
    ensures Shifts(Xor(x, y), n) == Xor(Shifts(x, n), Shifts(y, n))
    decreases n
  {
    hide Shift, Xor;
    if n > 0 {
      ShiftLinear(x, y);
      ShiftsLinear(Shift(x), Shift(y), n - 1);
    }
  }

  lemma {:induction false} ShiftsSum(x: bv32, n: nat, k: nat)
    ensures Shifts(x, n + k) == Shifts(Shifts(x, n), k)
    decreases n
  {
    hide Shift;
    if n > 0 {
      ShiftsSum(Shift(x), n - 1, k);
    }
  }

  lemma EightShifts(x: bv32)
    ensures Shifts(x, 8) == Shift(Shift(Shift(Shift(Shift(Shift(Shift(Shift(x))))))))
  {
    hide Shift;
    assert Shifts(x, 8) == Shifts(Shift(x), 7) == Shifts(Shift(Shift(x)), 6) == Shifts(Shift(Shift(Shift(x))), 5);
    var y := Shift(Shift(Shift(x)));
    assert Shifts(y, 5) == Shifts(Shift(y), 4) == Shifts(Shift(Shift(y)), 3);
    var z := Shift(Shift(y));
    assert Shifts(z, 3) == Shifts(Shift(z), 2) == Shift(Shift(Shift(z)));
  }

  // ---- Bursts ----

  /** Four bytes as one word, the first byte lowest. */
  function Word(bytes: seq<u8>): bv32 {
    if bytes == [] then 0 else Xor(Low(bytes[0]), Up(Word(bytes[1..])))
  }

  /** Nothing above the low one, two or three bytes. */
  predicate Fits1(w: bv32) { w & 0xFFFF_FF00 == 0 }
  predicate Fits2(w: bv32) { w & 0xFFFF_0000 == 0 }
  predicate Fits3(w: bv32) { w & 0xFF00_0000 == 0 }

  lemma ByteFits(b: u8)
    ensures Fits1(Low(b))
  {
  }

  lemma Widen(w: bv32)
    ensures Fits1(w) ==> Fits2(w)
    ensures Fits2(w) ==> Fits3(w)
    ensures Fits1(0)
  {
  }

  lemma Pack1(b: bv32)
    requires Fits1(b)
    ensures Fits1(Xor(b, Up(0)))
  {
  }

  lemma Pack2(b: bv32, w: bv32)
    requires Fits1(b) && Fits1(w)
    ensures Fits2(Xor(b, Up(w)))
  {
  }

  lemma Pack3(b: bv32, w: bv32)
    requires Fits1(b) && Fits2(w)
    ensures Fits3(Xor(b, Up(w)))
  {
  }

  lemma ByteInjective(b: u8, c: u8)
    requires Low(b) == Low(c)
    ensures b == c
  {
    ThroughBv8(b);
    ThroughBv8(c);
    WideningInjective(b as bv8, c as bv8);
  }

  lemma ThroughBv8(b: u8)
    ensures (b as bv8) as int == b && (b as bv8) as bv32 == Low(b)
  {
  }

  lemma WideningInjective(x: bv8, y: bv8)
    requires x as bv32 == y as bv32
    ensures x == y
  {
  }

  lemma PackInjective(b: bv32, w: bv32, c: bv32, v: bv32)
    requires Fits1(b) && Fits1(c) && Fits3(w) && Fits3(v)
    requires Xor(b, Up(w)) == Xor(c, Up(v))
    ensures b == c && w == v
  {
  }

  lemma {:induction false} WordFits(bytes: seq<u8>)
    requires |bytes| <= 3
    ensures Fits3(Word(bytes))
    ensures |bytes| <= 2 ==> Fits2(Word(bytes))
    ensures |bytes| <= 1 ==> Fits1(Word(bytes))
  {
    hide Fits1, Fits2, Fits3, Xor, Up, Low;
    Widen(Word(bytes));
    if bytes != [] {
      var b, w := Low(bytes[0]), Word(bytes[1..]);
      ByteFits(bytes[0]);
      WordFits(bytes[1..]);
      if |bytes| == 1 {
        assert w == 0;
        Pack1(b);
      } else if |bytes| == 2 {
        Pack2(b, w);
      } else {
        Pack3(b, w);
      }
    }
  }

  /** Eight steps bring a word down by a byte while its low byte is empty. */
  lemma ByteOut(w: bv32)
    requires Fits3(w)
    ensures Shifts(Up(w), 8) == w
  {
    hide Shift, Shifts, Up, Fits3;
    EightShifts(Up(w));
    EightOut(w);
  }

  lemma EightOut(w: bv32)
    requires Fits3(w)
    ensures Shift(Shift(Shift(Shift(Shift(Shift(Shift(Shift(Up(w))))))))) == w
  {
  }

  lemma {:induction false} WordInjective(a: seq<u8>, b: seq<u8>)
    requires |a| == |b| <= 4 && Word(a) == Word(b)
    ensures a == b
  {
    hide Fits1, Fits3, Xor, Up, Low;
    if a != [] {
      ByteFits(a[0]);
      ByteFits(b[0]);
      WordFits(a[1..]);
      WordFits(b[1..]);
      PackInjective(Low(a[0]), Word(a[1..]), Low(b[0]), Word(b[1..]));
      ByteInjective(a[0], b[0]);
      WordInjective(a[1..], b[1..]);
      assert a == [a[0]] + a[1..] && b == [b[0]] + b[1..];
    }
  }

  lemma XorAssoc(x: bv32, y: bv32, z: bv32)
    ensures Xor(x, Xor(y, z)) == Xor(Xor(x, y), z)
  {
  }

  lemma XorZero(x: bv32)
    ensures Xor(x, 0) == x
  {
  }

  lemma XorCancels(x: bv32, y: bv32, b: bv32)
    requires Xor(x, b) == Xor(y, b) || Xor(b, x) == Xor(b, y)
    ensures x == y
  {
  }

  lemma ComplementInjective(x: bv32, y: bv32)
    requires Complement(x) == Complement(y)
    ensures x == y
  {
  }

  /** Feeding up to four bytes is feeding their word and shifting. */
  lemma {:induction false} CrcOfWord(crc: bv32, bytes: seq<u8>)
    requires |bytes| <= 4
    ensures CrcFrom(crc, bytes) == Shifts(Xor(crc, Word(bytes)), 8 * |bytes|)
    decreases |bytes|
  {
    hide Fits1, Fits3, Xor, Up, Low, Shift;
    if bytes == [] {
      XorZero(crc);
    } else {
      var b, w := Low(bytes[0]), Word(bytes[1..]);
      CrcOfWord(Feed(crc, bytes[0]), bytes[1..]);
      WordFits(bytes[1..]);
      ByteOut(w);
      ShiftsLinear(Xor(crc, b), Up(w), 8);
      XorAssoc(crc, b, Up(w));
      ShiftsSum(Xor(crc, Word(bytes)), 8, 8 * |bytes[1..]|);
    }
  }

  lemma {:induction false} CrcInjective(x: bv32, y: bv32, data: seq<u8>)
    requires CrcFrom(x, data) == CrcFrom(y, data)
    ensures x == y
    decreases |data|
  {
    hide Shifts, Xor, Low;
    if data != [] {
      CrcInjective(Feed(x, data[0]), Feed(y, data[0]), data[1..]);
      ShiftsInjective(Xor(x, Low(data[0])), Xor(y, Low(data[0])), 8);
      XorCancels(x, y, Low(data[0]));
    }
  }

  lemma {:induction false} CrcConcat(crc: bv32, a: seq<u8>, b: seq<u8>)
    ensures CrcFrom(crc, a + b) == CrcFrom(CrcFrom(crc, a), b)
    decreases |a|
  {
    hide Feed;
    if a == [] {
      assert a + b == b;
    } else {
      assert (a + b)[1..] == a[1..] + b;
      CrcConcat(Feed(crc, a[0]), a[1..], b);
    }
  }

  /** Burst detection: two byte strings of the same length that differ, but
      only within four consecutive bytes, never have the same CRC. */
  lemma BurstDetected(head: seq<u8>, a: seq<u8>, b: seq<u8>, tail: seq<u8>)
    requires |a| == |b| <= 4 && a != b
    ensures Crc(head + a + tail) != Crc(head + b + tail)
  {
    hide CrcFrom, Shifts, Xor, Complement, Word;
    var crc := CrcFrom(0xFFFF_FFFF, head);
    CrcConcat(0xFFFF_FFFF, head + a, tail);
    CrcConcat(0xFFFF_FFFF, head + b, tail);
    CrcConcat(0xFFFF_FFFF, head, a);
    CrcConcat(0xFFFF_FFFF, head, b);
    if Crc(head + a + tail) == Crc(head + b + tail) {
      ComplementInjective(CrcFrom(0xFFFF_FFFF, head + a + tail), CrcFrom(0xFFFF_FFFF, head + b + tail));
      CrcInjective(CrcFrom(crc, a), CrcFrom(crc, b), tail);
      CrcOfWord(crc, a);
      CrcOfWord(crc, b);
      ShiftsInjective(Xor(crc, Word(a)), Xor(crc, Word(b)), 8 * |a|);
      XorCancels(Word(a), Word(b), crc);
      WordInjective(a, b);
    }
  }

  /** The same, by position: equal outside a window of four bytes and not equal
      means different CRCs. */
  lemma WindowDetected(a: seq<u8>, b: seq<u8>, at: nat)
    requires |a| == |b| && a != b
    requires forall k :: 0 <= k < |a| && !(at <= k < at + 4) ==> a[k] == b[k]
    ensures Crc(a) != Crc(b)
  {
    hide Crc;
    var lo := if at < |a| then at else |a|;
    var hi := if at + 4 < |a| then at + 4 else |a|;
    assert a == a[..lo] + a[lo..hi] + a[hi..];
    assert b == b[..lo] + b[lo..hi] + b[hi..];
    assert a[..lo] == b[..lo] && a[hi..] == b[hi..];
    BurstDetected(a[..lo], a[lo..hi], b[lo..hi], a[hi..]);
  }

  /** A word shifted eight times, spelled out. */
  lemma ShiftsThrough(x0: bv32, x1: bv32, x2: bv32, x3: bv32, x4: bv32, x5: bv32, x6: bv32, x7: bv32, x8: bv32)
    requires Shift(x0) == x1 && Shift(x1) == x2 && Shift(x2) == x3 && Shift(x3) == x4
    requires Shift(x4) == x5 && Shift(x5) == x6 && Shift(x6) == x7 && Shift(x7) == x8
    ensures Shifts(x0, 8) == x8
  {
    hide Shift;
    assert Shifts(x0, 8) == Shifts(x1, 7) == Shifts(x2, 6) == Shifts(x3, 5);
    assert Shifts(x3, 5) == Shifts(x4, 4) == Shifts(x5, 3) == Shifts(x6, 2);
    assert Shifts(x6, 2) == Shifts(x7, 1) == Shifts(x8, 0);
  }

  lemma FeedsFirst()
    ensures Feed(0xFFFF_FFFF, 0x61) == 0x3E2F_BCCF
  {
    hide Shifts;
    assert Xor(0xFFFF_FFFF, Low(0x61)) == 0xFFFF_FF9E;
    ShiftsThrough(0xFFFF_FF9E, 0x7FFF_FFCF, 0xBD09_C49F, 0xDC72_D937, 0xECCF_57E3,
                0xF491_9089, 0xF8BE_F33C, 0x7C5F_799E, 0x3E2F_BCCF);
  }

  lemma FeedsSecond()
    ensures Feed(0x3E2F_BCCF, 0x62) == 0x1D5D_D6C9
  {
    hide Shifts;
    assert Xor(0x3E2F_BCCF, Low(0x62)) == 0x3E2F_BCAD;
    ShiftsThrough(0x3E2F_BCAD, 0x9DE1_E52E, 0x4EF0_F297, 0xA58E_4233, 0xD031_1A61,
                0xEAEE_B648, 0x7577_5B24, 0x3ABB_AD92, 0x1D5D_D6C9);
  }

  /** A known value: the CRC of the two letters "ab". */
  lemma KnownValue()
    ensures Crc([0x61, 0x62]) == 0xE2A2_2936
  {
    hide Feed;
    FeedsFirst();
    FeedsSecond();
    assert [0x61, 0x62][1..] == [0x62] && [0x62][1..] == [];
    assert CrcFrom(0xFFFF_FFFF, [0x61, 0x62]) == 0x1D5D_D6C9;
  }
}
