/** Frames: header, payload and CRC under COBS, ended by a zero byte; the
    firmware's codec, the host's, and the resynchronising stream parser. */
module FrameCodec {
  import opened Words
  import opened StreamSession
  import Cobs
  import Crc32c

  const MAGIC: u16 := 0xA55A
  const MAX_PAYLOAD := 512
  const HEADER_SIZE := 16
  const CRC_SIZE := 4
  const MAX_DECODED_SIZE := 532
  const MAX_ENCODED_SIZE := 536

  /** What a firmware build knows: its protocol version, and the message sets
      compiled into it. */
  datatype Build = Build(version: u8, streamV2: bool, executor: bool, shadow: bool, dispatch: bool,
                         tracking: bool, feedback: bool)

  predicate MessageIsKnown(build: Build, m: u8) {
    || m in {1, 2, 3, 4, 5, 16, 17, 18, 19, 20, 21, 22, 32, 33, 34, 35, 36, 37, 38, 39,
             48, 49, 50, 51, 52, 53, 54, 55, 56, 57}
    || (build.streamV2 && m in {40, 41, 42})
    || (build.executor && m in {43, 44})
    || (build.shadow && m in {45, 46})
    || (build.dispatch && m in {47, 58})
    || (build.tracking && m in {59, 60})
    || (build.feedback && m in {61, 62})
  }

  datatype Frame = Frame(messageType: u8, flags: u16, sequence: u32, senderTimeMs: u32, payload: seq<u8>)

  datatype FrameError =
    | CobsError | FrameTooShort | BadMagic | BadVersion | UnknownMessage | BadLength | BadCrc | OutputTooSmall

  datatype FrameResult = FrameOk(frame: Frame) | FrameBad(error: FrameError)
  datatype EncodeResult = Encoded(bytes: seq<u8>) | NotEncoded(error: FrameError)

  function Header(version: u8, f: Frame): (h: seq<u8>)
    requires |f.payload| <= MAX_PAYLOAD
    ensures |h| == HEADER_SIZE
  {
    WriteU16(MAGIC) + [version, f.messageType] + WriteU16(f.flags) + WriteU16(|f.payload|)
    + WriteU32(f.sequence) + WriteU32(f.senderTimeMs)
  }

  function CrcWord(data: seq<u8>): u32 {
    Crc32c.Crc(data) as int
  }

  function Body(version: u8, f: Frame): (b: seq<u8>)
    requires |f.payload| <= MAX_PAYLOAD
    ensures |b| == HEADER_SIZE + |f.payload|
  {
    Header(version, f) + f.payload
  }

  /** The bytes a frame stands for. */
  function Serialize(version: u8, f: Frame): (s: seq<u8>)
    requires |f.payload| <= MAX_PAYLOAD
    ensures |s| == HEADER_SIZE + |f.payload| + CRC_SIZE
  {
    Body(version, f) + WriteU32(CrcWord(Body(version, f)))
  }

  function FrameEncode(build: Build, f: Frame, capacity: nat): EncodeResult {
    if !MessageIsKnown(build, f.messageType) then NotEncoded(UnknownMessage)
    else if |f.payload| > MAX_PAYLOAD then NotEncoded(BadLength)
    else if capacity < 2 then NotEncoded(OutputTooSmall)
    else
      var encoded := Cobs.Encode(Serialize(build.version, f));
      if |encoded| > capacity - 1 then NotEncoded(OutputTooSmall) else Encoded(encoded + [0])
  }

  function ReadFrame(decoded: seq<u8>): Frame
    requires HEADER_SIZE + CRC_SIZE <= |decoded|
  {
    Frame(decoded[3], ReadU16(decoded, 4), ReadU32(decoded, 8), ReadU32(decoded, 12),
          decoded[HEADER_SIZE..|decoded| - CRC_SIZE])
  }

  /** The checks on a decoded frame, in the firmware's order. */
  function CheckDecoded(build: Build, decoded: seq<u8>): FrameResult {
    if |decoded| < HEADER_SIZE + CRC_SIZE then FrameBad(FrameTooShort)
    else if ReadU16(decoded, 0) != MAGIC then FrameBad(BadMagic)
    else if decoded[2] != build.version then FrameBad(BadVersion)
    else if !MessageIsKnown(build, decoded[3]) then FrameBad(UnknownMessage)
    else if ReadU16(decoded, 6) > MAX_PAYLOAD then FrameBad(BadLength)
    else if |decoded| != HEADER_SIZE + ReadU16(decoded, 6) + CRC_SIZE then FrameBad(BadLength)
    else if CrcWord(decoded[..|decoded| - CRC_SIZE]) != ReadU32(decoded, |decoded| - CRC_SIZE) then FrameBad(BadCrc)
    else FrameOk(ReadFrame(decoded))
  }

  function FrameDecode(build: Build, encoded: seq<u8>): FrameResult {
    var decoded := Cobs.Decode(encoded);
    if decoded.None? || |decoded.value| > MAX_DECODED_SIZE then FrameBad(CobsError)
    else CheckDecoded(build, decoded.value)
  }

  ghost predicate Sendable(build: Build, f: Frame) {
    MessageIsKnown(build, f.messageType) && |f.payload| <= MAX_PAYLOAD
  }

  // ---- Reading back what was written ----

  lemma HeaderFields(version: u8, f: Frame, tail: seq<u8>)
    requires |f.payload| <= MAX_PAYLOAD
    ensures var d := Header(version, f) + tail;
            && ReadU16(d, 0) == MAGIC && d[2] == version && d[3] == f.messageType
            && ReadU16(d, 4) == f.flags && ReadU16(d, 6) == |f.payload|
            && ReadU32(d, 8) == f.sequence && ReadU32(d, 12) == f.senderTimeMs
  {
    var d := Header(version, f) + tail;
    assert d[0..2] == WriteU16(MAGIC) && d[4..6] == WriteU16(f.flags) && d[6..8] == WriteU16(|f.payload|);
    assert d[8..12] == WriteU32(f.sequence) && d[12..16] == WriteU32(f.senderTimeMs);
    ReadU16At(d, 0, WriteU16(MAGIC));
    ReadU16At(d, 4, WriteU16(f.flags));
    ReadU16At(d, 6, WriteU16(|f.payload|));
    ReadU32At(d, 8, WriteU32(f.sequence));
    ReadU32At(d, 12, WriteU32(f.senderTimeMs));
  }

  /** A serialised frame passes every check and reads back as itself. */
  lemma SerializedIsAccepted(build: Build, f: Frame)
    requires Sendable(build, f)
    ensures CheckDecoded(build, Serialize(build.version, f)) == FrameOk(f)
  {
    hide Header, CrcWord, MessageIsKnown;
    var body := Body(build.version, f);
    var d := Serialize(build.version, f);
    var crc := WriteU32(CrcWord(body));
    assert d == Header(build.version, f) + (f.payload + crc);
    HeaderFields(build.version, f, f.payload + crc);
    assert d[..|d| - CRC_SIZE] == body && d[|d| - CRC_SIZE..|d|] == crc;
    ReadU32At(d, |d| - CRC_SIZE, crc);
    assert d[HEADER_SIZE..|d| - CRC_SIZE] == f.payload;
  }

  /** Whatever passes the checks is the serialisation of the frame read. */
  lemma AcceptedIsSerialized(build: Build, d: seq<u8>)
    requires CheckDecoded(build, d).FrameOk?
    ensures var f := CheckDecoded(build, d).frame;
            Sendable(build, f) && d == Serialize(build.version, f)
  {
    hide CrcWord, MessageIsKnown;
    var f := ReadFrame(d);
    WordsDetermine16(d, 0);
    WordsDetermine16(d, 4);
    WordsDetermine16(d, 6);
    WordsDetermine32(d, 8);
    WordsDetermine32(d, 12);
    WordsDetermine32(d, |d| - CRC_SIZE);
    assert d[..HEADER_SIZE] == Header(build.version, f) by {
      hide CrcWord;
      assert d[..HEADER_SIZE] == d[0..2] + [d[2], d[3]] + d[4..6] + d[6..8] + d[8..12] + d[12..16];
    }
    assert d[..|d| - CRC_SIZE] == d[..HEADER_SIZE] + f.payload;
    assert d == d[..|d| - CRC_SIZE] + d[|d| - CRC_SIZE..|d|];
  }

  /** The decoder accepts exactly the COBS codings of serialised frames. */
  lemma DecodeIsExact(build: Build, encoded: seq<u8>, f: Frame)
    ensures FrameDecode(build, encoded) == FrameOk(f) <==>
              Sendable(build, f) && Cobs.Decode(encoded) == Some(Serialize(build.version, f))
  {
    hide CheckDecoded, Serialize, Cobs.Decode, MessageIsKnown;
    if FrameDecode(build, encoded) == FrameOk(f) {
      AcceptedIsSerialized(build, Cobs.Decode(encoded).value);
    }
    if Sendable(build, f) {
      SerializedIsAccepted(build, f);
    }
  }

  /** Decoding undoes encoding, whatever the capacity that let it through. */
  lemma FrameRoundTrip(build: Build, f: Frame, capacity: nat)
    requires FrameEncode(build, f, capacity).Encoded?
    ensures var bytes := FrameEncode(build, f, capacity).bytes;
            && bytes[|bytes| - 1] == 0 && (forall i :: 0 <= i < |bytes| - 1 ==> bytes[i] != 0)
            && FrameDecode(build, bytes[..|bytes| - 1]) == FrameOk(f)
  {
    hide Cobs.Encode, Cobs.Decode, Serialize, CheckDecoded;
    var s := Serialize(build.version, f);
    Cobs.RoundTrip(s);
    Cobs.NoZero(s);
    var bytes := FrameEncode(build, f, capacity).bytes;
    assert bytes[..|bytes| - 1] == Cobs.Encode(s);
    DecodeIsExact(build, Cobs.Encode(s), f);
  }

  /** A buffer of the maximum encoded size always suffices. */
  lemma EncodeFits(build: Build, f: Frame)
    requires Sendable(build, f)
    ensures FrameEncode(build, f, MAX_ENCODED_SIZE).Encoded?
    ensures |Cobs.Encode(Serialize(build.version, f))| <= MAX_ENCODED_SIZE - 1
  {
    hide Cobs.Encode, Serialize;
    Cobs.LengthBound(Serialize(build.version, f));
  }

  // ---- The host's codec ----

  /** The message types the host enumerates. */
  predicate HostKnows(m: u8) {
    m in {1, 2, 3, 16, 17, 18, 20, 21, 22, 32, 33, 40, 41, 42, 43, 44, 45, 46, 47, 48, 49, 58, 59, 60, 61, 62}
  }

  const HOST_VERSION: u8 := 2

  function HostEncodeFrame(f: Frame): Option<seq<u8>> {
    if |f.payload| > MAX_PAYLOAD then None
    else Some(Cobs.Encode(Serialize(HOST_VERSION, f)) + [0])
  }

  /** A packet without its trailing zero, if it has one. */
  function Undelimited(packet: seq<u8>): seq<u8> {
    if |packet| > 0 && packet[|packet| - 1] == 0 then packet[..|packet| - 1] else packet
  }

  /** The host's checks, in its own order. */
  function HostDecodeFrame(packet: seq<u8>): Option<Frame> {
    var decoded := Cobs.Decode(Undelimited(packet));
    if decoded.None? || |decoded.value| < HEADER_SIZE + CRC_SIZE then None
    else
      var d := decoded.value;
      if !HostKnows(d[3]) then None
      else if ReadU16(d, 0) != MAGIC || d[2] != HOST_VERSION then None
      else if ReadU16(d, 6) > MAX_PAYLOAD || |d| != HEADER_SIZE + ReadU16(d, 6) + CRC_SIZE then None
      else if CrcWord(d[..HEADER_SIZE + ReadU16(d, 6)]) != ReadU32(d, HEADER_SIZE + ReadU16(d, 6)) then None
      else Some(ReadFrame(d))
  }

  /** The build the host is written for. */
  const HOST_BUILD := Build(HOST_VERSION, true, true, true, true, true, true)

  /** Host and firmware agree on every packet, delimited or not: whatever the
      host decodes the firmware decodes to the same frame, and whatever the
      firmware decodes the host does too if it enumerates the message type. */
  lemma CodecsAgree(packet: seq<u8>, f: Frame)
    ensures HostDecodeFrame(packet) == Some(f) <==>
              FrameDecode(HOST_BUILD, Undelimited(packet)) == FrameOk(f) && HostKnows(f.messageType)
  {
    hide Cobs.Decode, CrcWord, ReadFrame, Undelimited;
    if HostDecodeFrame(packet).Some? {
      KnownToBoth(HostDecodeFrame(packet).value.messageType);
    }
    MessageTypeOf(Undelimited(packet));
  }

  lemma KnownToBoth(m: u8)
    ensures HostKnows(m) ==> MessageIsKnown(HOST_BUILD, m)
  {
  }

  lemma MessageTypeOf(encoded: seq<u8>)
    ensures var d := Cobs.Decode(encoded);
            d.Some? && |d.value| >= HEADER_SIZE + CRC_SIZE ==>
              ReadFrame(d.value).messageType == d.value[3]
              && (HostKnows(d.value[3]) ==> MessageIsKnown(HOST_BUILD, d.value[3]))
  {
    hide Cobs.Decode;
  }

  /** What the host sends, a firmware build that knows the message receives. */
  lemma HostToFirmware(build: Build, f: Frame)
    requires build.version == HOST_VERSION && Sendable(build, f)
    ensures var bytes := HostEncodeFrame(f).value;
            FrameDecode(build, bytes[..|bytes| - 1]) == FrameOk(f)
  {
    hide Cobs.Encode, Cobs.Decode, Serialize, CheckDecoded;
    var s := Serialize(build.version, f);
    Cobs.RoundTrip(s);
    assert (Cobs.Encode(s) + [0])[..|Cobs.Encode(s)|] == Cobs.Encode(s);
    DecodeIsExact(build, Cobs.Encode(s), f);
  }

  // ---- The stream parser ----

  const PARSER_CAPACITY := 535

  datatype Parser = Parser(buffer: seq<u8>, dropping: bool)
  datatype Outcome = NoFrame | Overflowed | Frames(result: FrameResult)

  const IDLE := Parser([], false)

  function Push(build: Build, p: Parser, byte: u8): (Parser, Outcome) {
    if byte != 0 then
      if p.dropping then (p, NoFrame)
      else if |p.buffer| >= PARSER_CAPACITY then (Parser([], true), Overflowed)
      else (p.(buffer := p.buffer + [byte]), NoFrame)
    else if p.dropping then (IDLE, Overflowed)
    else if p.buffer == [] then (p, NoFrame)
    else (IDLE, Frames(FrameDecode(build, p.buffer)))
  }

  /** The parser after a run of bytes, and what it said to each. */
  function PushAll(build: Build, p: Parser, bytes: seq<u8>): (Parser, seq<Outcome>)
    decreases |bytes|
  {
    if bytes == [] then (p, [])
    else
      var (p', o) := Push(build, p, bytes[0]);
      var (p'', os) := PushAll(build, p', bytes[1..]);
      (p'', [o] + os)
  }

  lemma {:induction false} PushConcat(build: Build, p: Parser, a: seq<u8>, b: seq<u8>)
    ensures PushAll(build, p, a + b) ==
              (PushAll(build, PushAll(build, p, a).0, b).0, PushAll(build, p, a).1 + PushAll(build, PushAll(build, p,
                  a).0, b).1)
    decreases |a|
  {
    hide Push;
    if a == [] {
      assert a + b == b;
      assert [] + PushAll(build, p, b).1 == PushAll(build, p, b).1;
    } else {
      assert (a + b)[0] == a[0] && (a + b)[1..] == a[1..] + b;
      var (p', o) := Push(build, p, a[0]);
      PushConcat(build, p', a[1..], b);
      var (q, os) := PushAll(build, p', a[1..]);
      var xs := PushAll(build, q, b).1;
      assert PushAll(build, p, a) == (q, [o] + os);
      assert [o] + (os + xs) == [o] + os + xs;
    }
  }

  /** Any state, any byte string: the zero after it leaves the parser idle. */
  lemma ZeroResynchronises(build: Build, p: Parser, junk: seq<u8>)
    ensures PushAll(build, p, junk + [0]).0 == IDLE
  {
    hide FrameDecode;
    PushConcat(build, p, junk, [0]);
    var q := PushAll(build, p, junk).0;
    assert PushAll(build, q, [0]).0 == Push(build, q, 0).0;
  }

  /** Non-zero bytes that fit are collected in silence. */
  lemma {:induction false} Collects(build: Build, collected: seq<u8>, bytes: seq<u8>)
    requires |collected| + |bytes| <= PARSER_CAPACITY && forall i :: 0 <= i < |bytes| ==> bytes[i] != 0
    ensures PushAll(build, Parser(collected, false), bytes).0 == Parser(collected + bytes, false)
    ensures PushAll(build, Parser(collected, false), bytes).1 == seq(|bytes|, _ => NoFrame)
    decreases |bytes|
  {
    hide FrameDecode;
    if bytes == [] {
      assert collected + bytes == collected;
    } else {
      Collects(build, collected + [bytes[0]], bytes[1..]);
      assert collected + [bytes[0]] + bytes[1..] == collected + bytes;
      assert [NoFrame] + seq(|bytes| - 1, _ => NoFrame) == seq(|bytes|, _ => NoFrame);
    }
  }

  /** Stream resynchronisation. From any parser state, after any bytes and then
      one zero, the coding of any sendable frame is collected without overflow
      and delivers exactly that frame at its delimiter, leaving the parser
      idle. */
  lemma Resynchronises(build: Build, p: Parser, junk: seq<u8>, f: Frame)
    requires Sendable(build, f)
    ensures FrameEncode(build, f, MAX_ENCODED_SIZE).Encoded?
    ensures var coded := FrameEncode(build, f, MAX_ENCODED_SIZE).bytes;
            var (end, outcomes) := PushAll(build, p, junk + [0] + coded);
            && end == IDLE
            && |outcomes| == |junk| + 1 + |coded|
            && outcomes[|junk| + 1..] == seq(|coded| - 1, _ => NoFrame) + [Frames(FrameOk(f))]
  {
    hide FrameDecode, Serialize, MessageIsKnown, Push;
    EncodeFits(build, f);
    FrameRoundTrip(build, f, MAX_ENCODED_SIZE);
    var coded := FrameEncode(build, f, MAX_ENCODED_SIZE).bytes;
    var inner := coded[..|coded| - 1];
    PushCount(build, p, junk + [0]);
    PushConcat(build, p, junk + [0], coded);
    ZeroResynchronises(build, p, junk);
    Delivers(build, inner, f);
    assert coded == inner + [0];
  }

  lemma Delivers(build: Build, inner: seq<u8>, f: Frame)
    requires 0 < |inner| <= PARSER_CAPACITY && forall i :: 0 <= i < |inner| ==> inner[i] != 0
    requires FrameDecode(build, inner) == FrameOk(f)
    ensures PushAll(build, IDLE, inner + [0]) == (IDLE, seq(|inner|, _ => NoFrame) + [Frames(FrameOk(f))])
  {
    hide FrameDecode;
    Collects(build, [], inner);
    assert [] + inner == inner;
    PushConcat(build, IDLE, inner, [0]);
    assert PushAll(build, Parser(inner, false), [0]) == (IDLE, [Frames(FrameOk(f))] + []);
    assert [Frames(FrameOk(f))] + [] == [Frames(FrameOk(f))];
  }

  lemma {:induction false} PushCount(build: Build, p: Parser, bytes: seq<u8>)
    ensures |PushAll(build, p, bytes).1| == |bytes|
    decreases |bytes|
  {
    hide Push;
    if bytes != [] {
      PushCount(build, Push(build, p, bytes[0]).0, bytes[1..]);
    }
  }

  // ---- Whole streams ----

  /** What the parser says to the bytes of one packet, zero included: nothing
      until the zero, and then the frame it decodes to, or nothing if it is
      empty; a packet longer than the buffer overflows once at the byte that does
      not fit and again at its zero. */
  function Said(build: Build, packet: seq<u8>): seq<Outcome> {
    if packet == [] then [NoFrame]
    else if |packet| <= 535 then seq(|packet|, _ => NoFrame) + [Frames(FrameDecode(build, packet))]
    else seq(535, _ => NoFrame) + [Overflowed] + seq(|packet| - 536, _ => NoFrame) + [Overflowed]
  }

  predicate ZeroFree(bytes: seq<u8>) {
    forall i :: 0 <= i < |bytes| ==> bytes[i] != 0
  }

  lemma {:induction false} DropsInSilence(build: Build, bytes: seq<u8>)
    requires ZeroFree(bytes)
    ensures PushAll(build, Parser([], true), bytes) == (Parser([], true), seq(|bytes|, _ => NoFrame))
    decreases |bytes|
  {
    hide FrameDecode;
    if bytes == [] {
      assert seq(0, _ => NoFrame) == [];
    } else {
      DropsInSilence(build, bytes[1..]);
      assert [NoFrame] + seq(|bytes| - 1, _ => NoFrame) == seq(|bytes|, _ => NoFrame);
    }
  }

  lemma OnePush(build: Build, p: Parser, byte: u8)
    ensures PushAll(build, p, [byte]) == (Push(build, p, byte).0, [Push(build, p, byte).1])
  {
    hide Push;
    assert [byte][1..] == [];
    assert [Push(build, p, byte).1] + [] == [Push(build, p, byte).1];
  }

  /** From idle, one packet and its zero. */
  lemma PacketIsSaid(build: Build, packet: seq<u8>)
    requires ZeroFree(packet)
    ensures PushAll(build, IDLE, packet + [0]) == (IDLE, Said(build, packet))
  {
    hide FrameDecode, PushAll;
    PushConcat(build, IDLE, packet, [0]);
    assert PARSER_CAPACITY == 535;
    if |packet| <= 535 {
      Collects(build, [], packet);
      assert [] + packet == packet;
      OnePush(build, Parser(packet, false), 0);
      assert packet == [] ==> seq(0, _ => NoFrame) + [NoFrame] == [NoFrame];
    } else {
      var head, over, rest := packet[..535], packet[535], packet[536..];
      assert packet == head + ([over] + rest);
      Collects(build, [], head);
      assert [] + head == head;
      PushConcat(build, IDLE, head, [over] + rest);
      PushConcat(build, Parser(head, false), [over], rest);
      OnePush(build, Parser(head, false), over);
      DropsInSilence(build, rest);
      OnePush(build, Parser([], true), 0);
      SaidLong(build, packet);
    }
  }

  lemma SaidLong(build: Build, packet: seq<u8>)
    requires |packet| > 535
    ensures seq(535, _ => NoFrame) + ([Overflowed] + seq(|packet| - 536, _ => NoFrame)) + [Overflowed]
         == Said(build, packet)
  {
  }

  /** Packets, each followed by its zero. */
  function Stream(packets: seq<seq<u8>>): seq<u8> {
    if packets == [] then [] else packets[0] + [0] + Stream(packets[1..])
  }

  function SaidAll(build: Build, packets: seq<seq<u8>>): seq<Outcome> {
    if packets == [] then [] else Said(build, packets[0]) + SaidAll(build, packets[1..])
  }

  /** The parser cuts any stream at its zeros: it says to each packet what it
      would say to that packet alone, and delivers neither more nor less. */
  lemma {:induction false} StreamIsCut(build: Build, packets: seq<seq<u8>>)
    requires forall k :: 0 <= k < |packets| ==> ZeroFree(packets[k])
    ensures PushAll(build, IDLE, Stream(packets)) == (IDLE, SaidAll(build, packets))
    decreases |packets|
  {
    hide Push, Said, FrameDecode, ZeroFree;
    if packets != [] {
      PacketIsSaid(build, packets[0]);
      StreamIsCut(build, packets[1..]);
      PushConcat(build, IDLE, packets[0] + [0], Stream(packets[1..]));
    }
  }

  /** The zeros of a byte string that ends in one cut it into such packets. */
  lemma {:induction false} EveryStreamIsPackets(bytes: seq<u8>) returns (packets: seq<seq<u8>>)
    requires bytes == [] || bytes[|bytes| - 1] == 0
    ensures Stream(packets) == bytes && forall k :: 0 <= k < |packets| ==> ZeroFree(packets[k])
    decreases |bytes|
  {
    if bytes == [] {
      packets := [];
    } else {
      var n := FirstZero(bytes);
      var rest := EveryStreamIsPackets(bytes[n + 1..]);
      packets := [bytes[..n]] + rest;
      assert packets[1..] == rest && bytes == bytes[..n] + [0] + bytes[n + 1..];
    }
  }

  function FirstZero(bytes: seq<u8>): (n: nat)
    requires bytes != [] && bytes[|bytes| - 1] == 0
    ensures n < |bytes| && bytes[n] == 0 && ZeroFree(bytes[..n])
  {
    if bytes[0] == 0 then 0
    else
      var n := FirstZero(bytes[1..]);
      assert bytes[..n + 1] == [bytes[0]] + bytes[1..][..n];
      n + 1
  }

  // ---- The bytes of a frame ----

  /** Where everything is in a frame before it is coded: magic 5A A5, version,
      type, flags, length, sequence and sender time, low bytes first; the
      payload; and the CRC of all that. */
  lemma FrameLayout(version: u8, f: Frame)
    requires |f.payload| <= 512
    ensures var s, n := Serialize(version, f), |f.payload|;
            && |s| == n + 20 && s[0] == 0x5A && s[1] == 0xA5 && s[2] == version && s[3] == f.messageType
            && (s[4] as int) + 256 * (s[5] as int) == f.flags && (s[6] as int) + 256 * (s[7] as int) == n
            && ReadU32(s, 8) == f.sequence && ReadU32(s, 12) == f.senderTimeMs
            && s[16..16 + n] == f.payload
            && ReadU32(s, 16 + n) == Crc32c.Crc(s[..16 + n]) as int
  {
    hide Crc32c.Crc, Header;
    var body := Body(version, f);
    var crc := WriteU32(CrcWord(body));
    var s := Serialize(version, f);
    assert s == Header(version, f) + (f.payload + crc);
    HeaderFields(version, f, f.payload + crc);
    MagicBytes(version, f);
    assert s[0] == Header(version, f)[0] && s[1] == Header(version, f)[1];
    assert s[..16 + |f.payload|] == body && s[16 + |f.payload|..16 + |f.payload| + 4] == crc;
    ReadU32At(s, 16 + |f.payload|, crc);
  }

  lemma MagicBytes(version: u8, f: Frame)
    requires |f.payload| <= 512
    ensures Header(version, f)[0] == 0x5A && Header(version, f)[1] == 0xA5
  {
  }

  /** When a frame is encoded: a known message, a payload that is not too long,
      and room for its coding and the zero. */
  lemma EncodesWhen(build: Build, f: Frame, capacity: nat)
    ensures var r := FrameEncode(build, f, capacity);
            && (r == NotEncoded(UnknownMessage) <==> !MessageIsKnown(build, f.messageType))
            && (r == NotEncoded(BadLength) <==> MessageIsKnown(build, f.messageType) && |f.payload| > 512)
            && (r.Encoded? <==>
                  && MessageIsKnown(build, f.messageType) && |f.payload| <= 512
                  && |Cobs.Encode(Serialize(build.version, f))| + 1 <= capacity)
            && (r.NotEncoded? ==> r.error in {UnknownMessage, BadLength, OutputTooSmall})
    ensures HostEncodeFrame(f).Some? <==> |f.payload| <= 512
  {
    hide Serialize, MessageIsKnown;
  }

  /** Why a frame is refused, on the bytes it decodes to. */
  lemma RefusalsAreTrue(build: Build, encoded: seq<u8>)
    ensures var r, d := FrameDecode(build, encoded), Cobs.Decode(encoded);
            r.FrameBad? ==>
              match r.error
              case CobsError => d.None? || |d.value| > 532
              case FrameTooShort => d.Some? && |d.value| < 20
              case BadMagic => d.Some? && |d.value| >= 20 && !(d.value[0] == 0x5A && d.value[1] == 0xA5)
              case BadVersion => d.Some? && |d.value| >= 20 && d.value[2] != build.version
              case UnknownMessage => d.Some? && |d.value| >= 20 && !MessageIsKnown(build, d.value[3])
              case BadLength =>
                d.Some? && |d.value| >= 20
                && var n := (d.value[6] as int) + 256 * (d.value[7] as int);
                   n > 512 || |d.value| != n + 20
              case BadCrc =>
                d.Some? && |d.value| >= 20
                && Crc32c.Crc(d.value[..|d.value| - 4]) as int != ReadU32(d.value, |d.value| - 4)
              case OutputTooSmall => false
  {
    hide Crc32c.Crc, Cobs.Decode, MessageIsKnown;
  }

  /** The parser as the firmware keeps it. */
  class StreamParser {
    const encoded: array<u8>
    var length: nat
    var dropping: bool

    ghost predicate Valid()
      reads this
    {
      encoded.Length == PARSER_CAPACITY && length <= PARSER_CAPACITY
    }

    function Value(): Parser
      requires Valid()
      reads this, encoded
    {
      Parser(encoded[..length], dropping)
    }

    constructor ()
      ensures Valid() && fresh(encoded) && Value() == IDLE
    {
      encoded := new u8[PARSER_CAPACITY];
      length, dropping := 0, false;
    }

    method PushByte(build: Build, byte: u8) returns (outcome: Outcome)
      requires Valid()
      modifies this, encoded
      ensures Valid() && (Value(), outcome) == Push(build, old(Value()), byte)
    {
      hide FrameDecode;
      if byte != 0 {
        if dropping { return NoFrame; }
        if length >= PARSER_CAPACITY {
          length, dropping := 0, true;
          return Overflowed;
        }
        encoded[length] := byte;
        length := length + 1;
        assert encoded[..length] == old(encoded[..length]) + [byte];
        return NoFrame;
      }
      if dropping {
        length, dropping := 0, false;
        return Overflowed;
      }
      if length == 0 { return NoFrame; }
      outcome := Frames(FrameDecode(build, encoded[..length]));
      length := 0;
    }
  }
}
