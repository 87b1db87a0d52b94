/** The servo reply parser: it finds `FF FF id length body` in a byte stream,
    resynchronising on runs of FF, and checks the reply byte by byte. */
module ServoResponse {
  import opened Words

  const MAX_BODY := 18
  const SYNC_BYTE: u8 := 0xFF

  datatype Reject = RejectNone | RejectHeader | RejectId | RejectLength | RejectChecksum

  datatype Parsed = NeedMore | FrameReady | FrameRejected | StatusError

  /** A complete reply, good or bad, from the expected servo. */
  predicate Final(r: Parsed) {
    r == FrameReady || r == StatusError
  }

  /** `sync` counts the header: 0 and 1 look for FF, 2 reads the id, 3 the
      length, 4 the body, of which `body` has arrived. */
  datatype Parser = Parser(
    expectedId: u8, expectedLength: u8, sync: nat, id: u8, length: u8, body: seq<u8>,
    status: u8, lastReject: Reject, discarded: u16)

  function InitParser(expectedId: u8, expectedLength: u8): Parser {
    Parser(expectedId, expectedLength, 0, 0, 0, [], 0, RejectNone, 0)
  }

  /** States in which a byte may come: the body's array has room for it. */
  predicate Pushable(p: Parser) {
    p.sync <= 4 && (p.sync == 4 ==> 2 <= p.length <= MAX_BODY && |p.body| < MAX_BODY)
  }

  /** States without a finished reply: the body is still incomplete. */
  predicate Ready(p: Parser) {
    Pushable(p) && (p.sync == 4 ==> |p.body| < p.length)
  }

  function Discard(discarded: u16, bytes: nat): u16 {
    if TWO_16 - 1 - discarded < bytes then TWO_16 - 1 else discarded + bytes
  }

  function Rejected(p: Parser, why: Reject, bytes: nat): (Parser, Parsed) {
    (p.(lastReject := why, discarded := Discard(p.discarded, bytes), sync := 0, id := 0, length := 0, body := []),
     FrameRejected)
  }

  function Sum(bytes: seq<u8>): u8 {
    if bytes == [] then 0 else (Sum(bytes[..|bytes| - 1]) + bytes[|bytes| - 1]) % 0x100
  }

  /** The checksum byte: the complement of the sum of id, length and the rest. */
  function Checksum(id: u8, length: u8, bytes: seq<u8>): u8 {
    0xFF - (id + length + Sum(bytes)) % 0x100
  }

  /** The body is complete; what may follow it is not looked at. */
  function CheckBody(p: Parser): (Parser, Parsed)
    requires 2 <= p.length <= MAX_BODY && p.length as int <= |p.body|
  {
    var last := p.length as int - 1;
    if p.body[last] != Checksum(p.id, p.length, p.body[..last]) then Rejected(p, RejectChecksum, p.length + 4)
    else if p.id != p.expectedId then Rejected(p, RejectId, p.length + 4)
    else if p.length != (p.expectedLength + 2) % 0x100 then Rejected(p, RejectLength, p.length + 4)
    else (p.(status := p.body[0]), if p.body[0] != 0 then StatusError else FrameReady)
  }

  function Push(p: Parser, byte: u8): (r: (Parser, Parsed))
    requires Pushable(p)
    ensures !Final(r.1) ==> Ready(r.0)
    ensures r.0.expectedId == p.expectedId && r.0.expectedLength == p.expectedLength
  {
    if p.sync < 2 then
      if byte == SYNC_BYTE then (p.(sync := p.sync + 1), NeedMore)
      else (p.(sync := 0, discarded := Discard(p.discarded, 1), lastReject := RejectHeader), NeedMore)
    else if p.sync == 2 then
      if byte == SYNC_BYTE then (p, NeedMore) else (p.(id := byte, sync := 3), NeedMore)
    else if p.sync == 3 then
      var sized := p.(length := byte, body := []);
      if byte < 2 || byte > MAX_BODY then Rejected(sized, RejectLength, 4) else (sized.(sync := 4), NeedMore)
    else
      var grown := p.(body := p.body + [byte]);
      if |grown.body| < p.length then (grown, NeedMore) else CheckBody(grown)
  }

  /** The data of a finished reply. */
  function Data(p: Parser): seq<u8>
    requires p.expectedLength as int + 1 <= |p.body|
  {
    p.body[1..1 + p.expectedLength as int]
  }

  /** The bytes of a reply: status, data and checksum behind the header. */
  function ReplyBytes(id: u8, status: u8, data: seq<u8>): seq<u8>
    requires |data| + 2 <= MAX_BODY
  {
    [SYNC_BYTE, SYNC_BYTE, id, |data| + 2, status] + data + [Checksum(id, |data| + 2, [status] + data)]
  }

  ghost predicate EndsWith(bytes: seq<u8>, tail: seq<u8>) {
    |tail| <= |bytes| && bytes[|bytes| - |tail|..] == tail
  }

  /** What the parser's state says of the bytes it has seen. */
  ghost predicate Explains(p: Parser, seen: seq<u8>) {
    && Ready(p)
    && (p.sync == 1 ==> EndsWith(seen, [SYNC_BYTE]))
    && (p.sync == 2 ==> EndsWith(seen, [SYNC_BYTE, SYNC_BYTE]))
    && (p.sync == 3 ==> EndsWith(seen, [SYNC_BYTE, SYNC_BYTE, p.id]))
    && (p.sync == 4 ==> EndsWith(seen, [SYNC_BYTE, SYNC_BYTE, p.id, p.length] + p.body))
    && (3 <= p.sync ==> p.id != SYNC_BYTE)
  }

  lemma EndsWithMore(seen: seq<u8>, tail: seq<u8>, byte: u8)
    requires EndsWith(seen, tail)
    ensures EndsWith(seen + [byte], tail + [byte])
  {
    var more := seen + [byte];
    assert more[|more| - |tail| - 1..] == seen[|seen| - |tail|..] + [byte];
  }

  lemma EndsWithLess(seen: seq<u8>, cut: seq<u8>, tail: seq<u8>)
    requires EndsWith(seen, cut + tail)
    ensures EndsWith(seen, tail)
  {
    assert seen[|seen| - |tail|..] == (cut + tail)[|cut|..];
  }

  /** Every byte keeps the explanation, unless a frame has just finished. */
  lemma PushExplains(p: Parser, seen: seq<u8>, byte: u8)
    requires Explains(p, seen) && !Final(Push(p, byte).1)
    ensures Explains(Push(p, byte).0, seen + [byte])
  {
    hide EndsWith, Checksum;
    if p.sync == 0 {
      EmptyEnds(seen);
      EndsWithMore(seen, [], byte);
      assert [] + [byte] == [byte];
    } else if p.sync == 1 {
      EndsWithMore(seen, [SYNC_BYTE], byte);
      assert [SYNC_BYTE] + [byte] == [SYNC_BYTE, byte];
    } else if p.sync == 2 {
      EndsWithMore(seen, [SYNC_BYTE, SYNC_BYTE], byte);
      assert [SYNC_BYTE, SYNC_BYTE] + [byte] == [SYNC_BYTE] + [SYNC_BYTE, byte];
      EndsWithLess(seen + [byte], [SYNC_BYTE], [SYNC_BYTE, byte]);
      assert [SYNC_BYTE, SYNC_BYTE] + [byte] == [SYNC_BYTE, SYNC_BYTE, byte];
    } else if p.sync == 3 {
      EndsWithMore(seen, [SYNC_BYTE, SYNC_BYTE, p.id], byte);
      assert [SYNC_BYTE, SYNC_BYTE, p.id] + [byte] == [SYNC_BYTE, SYNC_BYTE, p.id, byte] + [];
    } else {
      EndsWithMore(seen, [SYNC_BYTE, SYNC_BYTE, p.id, p.length] + p.body, byte);
      assert [SYNC_BYTE, SYNC_BYTE, p.id, p.length] + p.body + [byte]
          == [SYNC_BYTE, SYNC_BYTE, p.id, p.length] + (p.body + [byte]);
    }
  }

  lemma EmptyEnds(seen: seq<u8>)
    ensures EndsWith(seen, [])
  {
    assert seen[|seen|..] == [];
  }

  /** A finished reply is in the bytes: the last ones seen are exactly a reply
      from the expected servo, of the expected length, with a correct checksum;
      `FrameReady` when its status is zero, `StatusError` when it is not; and
      the data handed out is its data. */
  lemma FinishedMeansReply(p: Parser, seen: seq<u8>, byte: u8)
    requires Explains(p, seen) && Final(Push(p, byte).1)
    ensures var (after, result) := Push(p, byte);
            && after.expectedLength as int + 1 <= |after.body| && after.expectedLength as int + 2 <= MAX_BODY
            && EndsWith(seen + [byte], ReplyBytes(p.expectedId, after.status, Data(after)))
            && (result == FrameReady <==> after.status == 0)
  {
    hide EndsWith, Checksum, ReplyBytes;
    var after := Push(p, byte).0;
    FinishedShape(p, byte);
    EndsWithMore(seen, [SYNC_BYTE, SYNC_BYTE, p.id, p.length] + p.body, byte);
    ReplyParts(p.expectedId, after.status, Data(after));
    assert [SYNC_BYTE, SYNC_BYTE, p.id, p.length] + p.body + [byte] == [SYNC_BYTE, SYNC_BYTE, p.id,
        p.length] + (p.body + [byte]);
  }

  /** What the checks on a complete body leave. */
  lemma FinishedShape(p: Parser, byte: u8)
    requires Ready(p) && Final(Push(p, byte).1)
    ensures var (after, result) := Push(p, byte);
            && after.expectedLength as int + 1 <= |after.body| && p.sync == 4
            && p.id == p.expectedId && p.length as int == p.expectedLength + 2 == |Data(after)| + 2
            && p.body == [after.status] + Data(after) && byte == Checksum(p.id, p.length, p.body)
            && (result == FrameReady <==> after.status == 0)
  {
    hide Checksum;
    var after := Push(p, byte).0;
    var body := p.body + [byte];
    assert body[..|body| - 1] == p.body;
    assert body[1..|body| - 1] == p.body[1..];
  }

  // ---- Rejections ----

  /** The sum of the bytes. */
  function Total(bytes: seq<u8>): nat {
    if bytes == [] then 0 else bytes[0] as int + Total(bytes[1..])
  }

  lemma {:induction false} TotalMore(bytes: seq<u8>, last: u8)
    ensures Total(bytes + [last]) == Total(bytes) + last
    decreases |bytes|
  {
    if bytes != [] {
      assert (bytes + [last])[1..] == bytes[1..] + [last];
      TotalMore(bytes[1..], last);
    }
  }

  lemma {:induction false} SumIsTotal(bytes: seq<u8>)
    ensures Sum(bytes) == Total(bytes) % 0x100
  {
    if bytes != [] {
      var front := bytes[..|bytes| - 1];
      SumIsTotal(front);
      TotalMore(front, bytes[|bytes| - 1]);
      assert front + [bytes[|bytes| - 1]] == bytes;
      ModAdds(Total(front), bytes[|bytes| - 1]);
    }
  }

  /** The checksum makes everything behind the header sum to 255. */
  lemma ChecksumCompletes(id: u8, length: u8, bytes: seq<u8>)
    ensures (id + length + Total(bytes) + Checksum(id, length, bytes)) % 256 == 255
  {
    hide Sum, Total;
    SumIsTotal(bytes);
    ModAdds2(id + length, Total(bytes));
    var n := id + length + Total(bytes);
    assert Checksum(id, length, bytes) == 255 - n % 256;
    assert n == n / 256 * 256 + n % 256;
  }

  /** Why a frame is rejected, in the bytes seen: the header bore a length that
      is none; or the frame is complete, and the sum is not 255, or it is from
      another servo, or it is not as long as expected. The parser then looks for
      a header again, and has counted the frame's bytes as discarded. */
  lemma RejectionMeans(p: Parser, seen: seq<u8>, byte: u8)
    requires Explains(p, seen) && Push(p, byte).1 == FrameRejected
    ensures var after := Push(p, byte).0;
            && after.sync == 0 && p.sync in {3, 4}
            && var length := if p.sync == 3 then byte else p.length;
               var body := if p.sync == 3 then [] else p.body + [byte];
               var frame := [SYNC_BYTE, SYNC_BYTE, p.id, length] + body;
               && EndsWith(seen + [byte], frame)
               && after.discarded as int == Least(65535, p.discarded + |frame|)
               && if p.sync == 3 then after.lastReject == RejectLength && !(2 <= length <= 18)
                  else
                    && |body| == length as int
                    && var correct := (p.id + length + Total(body)) % 256 == 255;
                       && (after.lastReject == RejectChecksum <==> !correct)
                       && (after.lastReject == RejectId <==> correct && p.id != p.expectedId)
                       && (after.lastReject == RejectLength <==>
                             correct && p.id == p.expectedId && length as int != (p.expectedLength + 2) % 256)
  {
    hide EndsWith, Checksum, Total;
    if p.sync == 3 {
      EndsWithMore(seen, [SYNC_BYTE, SYNC_BYTE, p.id], byte);
      assert [SYNC_BYTE, SYNC_BYTE, p.id] + [byte] == [SYNC_BYTE, SYNC_BYTE, p.id, byte] + [];
    } else {
      EndsWithMore(seen, [SYNC_BYTE, SYNC_BYTE, p.id, p.length] + p.body, byte);
      var body := p.body + [byte];
      assert [SYNC_BYTE, SYNC_BYTE, p.id, p.length] + p.body + [byte]
          == [SYNC_BYTE, SYNC_BYTE, p.id, p.length] + body;
      assert body[..|body| - 1] == p.body;
      ChecksumIs(p.id, p.length, p.body, byte);
    }
  }

  function Least(a: int, b: int): int {
    if a < b then a else b
  }

  lemma ChecksumIs(id: u8, length: u8, bytes: seq<u8>, last: u8)
    ensures last == Checksum(id, length, bytes) <==> (id + length + Total(bytes + [last])) % 256 == 255
  {
    hide Checksum, Total;
    TotalMore(bytes, last);
    ChecksumCompletes(id, length, bytes);
    var n := id + length + Total(bytes);
    var c := Checksum(id, length, bytes);
    if (n + last) % 256 == 255 {
      assert (n + c) % 256 == 255;
      assert (last - c) % 256 == 0;
    }
  }

  /** Bytes before a header are counted as discarded one by one; nothing else
      is. */
  lemma SearchingDiscards(p: Parser, byte: u8)
    requires Ready(p) && Push(p, byte).1 != FrameRejected
    ensures var after := Push(p, byte).0;
            && (p.sync < 2 && byte != SYNC_BYTE ==>
                  && after.sync == 0 && after.lastReject == RejectHeader
                  && after.discarded as int == Least(65535, p.discarded + 1))
            && (p.sync >= 2 || byte == SYNC_BYTE ==>
                  after.discarded == p.discarded && after.lastReject == p.lastReject)
  {
    hide Checksum;
  }

  /** A reply that was not taken is reported again: a further byte, while the
      array has room, changes neither verdict nor data. */
  lemma FinishedRepeats(p: Parser, byte: u8, more: u8)
    requires Ready(p) && Final(Push(p, byte).1) && Pushable(Push(p, byte).0)
    ensures var (after, result) := Push(p, byte);
            && Push(after, more) == (after.(body := after.body + [more]), result)
            && after.expectedLength as int + 1 <= |after.body|
            && Data(after.(body := after.body + [more])) == Data(after)
  {
    hide Checksum;
    var after := Push(p, byte).0;
    var n := after.length as int;
    assert (after.body + [more])[..n - 1] == after.body[..n - 1];
    assert (after.body + [more])[1..1 + after.expectedLength as int] == after.body[1..1 + after.expectedLength as int];
  }

  // ---- Feeding a stream ----

  /** Pushing bytes one by one until a reply is finished: the parser, how many
      bytes that took, and the result. */
  function Feed(p: Parser, bytes: seq<u8>): (r: (Parser, nat, Parsed))
    requires bytes == [] || Pushable(p)
    ensures r.1 <= |bytes| && r.2 != FrameRejected
    ensures r.2 == NeedMore ==> r.1 == |bytes| && if bytes == [] then r.0 == p else Ready(r.0)
    ensures r.0.expectedLength == p.expectedLength && r.0.expectedId == p.expectedId
    decreases |bytes|
  {
    if bytes == [] then (p, 0, NeedMore)
    else
      var (next, result) := Push(p, bytes[0]);
      if Final(result) then (next, 1, result)
      else
        var (end, count, final) := Feed(next, bytes[1..]);
        (end, count + 1, final)
  }

  lemma {:induction false} FeedConcat(p: Parser, a: seq<u8>, b: seq<u8>)
    requires Pushable(p)
    ensures Feed(p, a).2 != NeedMore ==> Feed(p, a + b) == Feed(p, a)
    ensures Feed(p, a).2 == NeedMore ==>
              Feed(p, a + b) == (Feed(Feed(p, a).0, b).0, |a| + Feed(Feed(p, a).0, b).1, Feed(Feed(p, a).0, b).2)
    decreases |a|
  {
    hide Push;
    if a == [] {
      assert a + b == b;
    } else {
      assert (a + b)[0] == a[0] && (a + b)[1..] == a[1..] + b;
      if !Final(Push(p, a[0]).1) {
        FeedConcat(Push(p, a[0]).0, a[1..], b);
      }
    }
  }

  /** Over any stream: when feeding ends with a finished reply, the bytes taken
      end with exactly that reply. */
  lemma {:induction false} FeedFindsReply(p: Parser, seen: seq<u8>, bytes: seq<u8>)
    requires Explains(p, seen) && Feed(p, bytes).2 != NeedMore
    ensures var (end, count, result) := Feed(p, bytes);
            && end.expectedLength as int + 1 <= |end.body| && end.expectedLength as int + 2 <= MAX_BODY
            && EndsWith(seen + bytes[..count], ReplyBytes(p.expectedId, end.status, Data(end)))
            && (result == FrameReady <==> end.status == 0)
    decreases |bytes|
  {
    hide Push, Explains, EndsWith, ReplyBytes;
    ExplainedIsReady(p, seen);
    var (next, result) := Push(p, bytes[0]);
    if Final(result) {
      FinishedMeansReply(p, seen, bytes[0]);
      assert bytes[..1] == [bytes[0]];
    } else {
      PushExplains(p, seen, bytes[0]);
      FeedFindsReply(next, seen + [bytes[0]], bytes[1..]);
      var count := Feed(next, bytes[1..]).1;
      assert seen + [bytes[0]] + bytes[1..][..count] == seen + bytes[..count + 1];
    }
  }

  lemma ExplainedIsReady(p: Parser, seen: seq<u8>)
    requires Explains(p, seen)
    ensures Ready(p)
  {
  }

  // ---- The expected reply is found ----

  lemma PushHeader(p: Parser, id: u8, length: u8)
    requires p.sync <= 2 && id != SYNC_BYTE && 2 <= length <= MAX_BODY
    ensures Ready(p)
    ensures Feed(p, [SYNC_BYTE, SYNC_BYTE, id, length]) == (p.(sync := 4, id := id, length := length, body := []), 4,
        NeedMore)
  {
    var p1 := p.(sync := if p.sync < 2 then p.sync + 1 else 2);
    var p2 := p.(sync := 2);
    var p3 := p.(sync := 3, id := id);
    var p4 := p.(sync := 4, id := id, length := length, body := []);
    assert Push(p, SYNC_BYTE) == (p1, NeedMore) && Push(p1, SYNC_BYTE) == (p2, NeedMore);
    assert Push(p2, id) == (p3, NeedMore) && Push(p3, length) == (p4, NeedMore);
    FeedOne(p3, length, []);
    FeedOne(p2, id, [length]);
    FeedOne(p1, SYNC_BYTE, [id, length]);
    FeedOne(p, SYNC_BYTE, [SYNC_BYTE, id, length]);
  }

  lemma FeedOne(p: Parser, byte: u8, rest: seq<u8>)
    requires Ready(p) && Push(p, byte).1 == NeedMore
    ensures Feed(p, [byte] + rest) == (Feed(Push(p, byte).0, rest).0, Feed(Push(p, byte).0, rest).1 + 1, Feed(Push(p,
        byte).0, rest).2)
  {
    assert ([byte] + rest)[1..] == rest;
  }

  lemma {:induction false} PushBody(p: Parser, bytes: seq<u8>)
    requires Ready(p) && p.sync == 4 && |p.body| + |bytes| < p.length
    ensures Feed(p, bytes) == (p.(body := p.body + bytes), |bytes|, NeedMore)
    decreases |bytes|
  {
    if bytes == [] {
      assert p.body + bytes == p.body;
    } else {
      PushBody(p.(body := p.body + [bytes[0]]), bytes[1..]);
      assert p.body + [bytes[0]] + bytes[1..] == p.body + bytes;
    }
  }

  /** The last body byte of the expected reply finishes it. */
  lemma LastByte(p: Parser, status: u8, data: seq<u8>)
    requires p.sync == 4 && p.id == p.expectedId && |data| == p.expectedLength as int && |data| + 2 <= MAX_BODY
    requires p.length as int == |data| + 2 && p.body == [status] + data
    ensures var last := Checksum(p.id, p.length, [status] + data);
            var whole := [status] + data + [last];
            && Push(p, last) == (p.(body := whole, status := status), if status == 0 then FrameReady else StatusError)
            && Data(p.(body := whole)) == data
  {
    hide Checksum;
    var last := Checksum(p.id, p.length, [status] + data);
    var whole := [status] + data + [last];
    assert whole[..|data| + 1] == [status] + data;
    assert whole[1..1 + |data|] == data;
  }

  lemma ReplyParts(id: u8, status: u8, data: seq<u8>)
    requires |data| + 2 <= MAX_BODY
    ensures var middle := [status] + data;
            ReplyBytes(id, status, data) == [SYNC_BYTE, SYNC_BYTE, id, |data| + 2] + (middle + [Checksum(id,
                |data| + 2, middle)])
  {
    hide Checksum;
    var last := Checksum(id, |data| + 2, [status] + data);
    assert [SYNC_BYTE, SYNC_BYTE, id, (|data| + 2) as u8, status] + data + [last]
        == [SYNC_BYTE, SYNC_BYTE, id, (|data| + 2) as u8] + ([status] + data + [last]);
  }

  /** From any state that is still looking for a header, however many FF bytes
      it has seen, the expected reply is found at its last byte. */
  lemma ReplyIsFound(p: Parser, status: u8, data: seq<u8>)
    requires p.sync <= 2 && p.expectedId != SYNC_BYTE && |data| == p.expectedLength as int && |data| + 2 <= MAX_BODY
    ensures Ready(p)
    ensures var reply := ReplyBytes(p.expectedId, status, data);
            var (end, count, result) := Feed(p, reply);
            && count == |reply| && result == (if status == 0 then FrameReady else StatusError)
            && end.status == status && |end.body| == |data| + 2 && Data(end) == data
  {
    hide Checksum, Push, ReplyBytes, Feed;
    var id, length := p.expectedId, |data| + 2;
    var header, middle := [SYNC_BYTE, SYNC_BYTE, id, length as u8], [status] + data;
    var last := Checksum(id, length, middle);
    ReplyParts(id, status, data);
    PushHeader(p, id, length);
    var p4 := p.(sync := 4, id := id, length := length, body := []);
    PushBody(p4, middle);
    assert [] + middle == middle;
    var p5 := p4.(body := middle);
    LastByte(p5, status, data);
    FeedLast(p5, last);
    FeedConcat(p4, middle, [last]);
    FeedConcat(p, header, middle + [last]);
  }

  lemma FeedLast(p: Parser, byte: u8)
    requires Ready(p) && Final(Push(p, byte).1)
    ensures Feed(p, [byte]) == (Push(p, byte).0, 1, Push(p, byte).1)
  {
  }

  lemma SumStep(start: nat, bytes: seq<u8>, i: nat)
    requires i < |bytes|
    ensures ((start + Sum(bytes[..i])) % 0x100 + bytes[i]) % 0x100 == (start + Sum(bytes[..i + 1])) % 0x100
  {
    assert bytes[..i + 1][..i] == bytes[..i];
    ModAdds(start + Sum(bytes[..i]), bytes[i]);
    ModAdds2(start, Sum(bytes[..i]) + bytes[i]);
  }

  lemma ModAdds(a: nat, b: nat)
    ensures (a % 0x100 + b) % 0x100 == (a + b) % 0x100
  {
  }

  lemma ModAdds2(a: nat, b: nat)
    ensures (a + b % 0x100) % 0x100 == (a + b) % 0x100
  {
  }

  /** The parser as the firmware keeps it. */
  class ResponseParser {
    const body: array<u8>
    var expectedId: u8
    var expectedLength: u8
    var sync: nat
    var id: u8
    var length: u8
    var bodyIndex: nat
    var status: u8
    var lastReject: Reject
    var discarded: u16

    ghost predicate Valid()
      reads this
    {
      body.Length == MAX_BODY && bodyIndex <= MAX_BODY
    }

    function Value(): Parser
      requires Valid()
      reads this, body
    {
      Parser(expectedId, expectedLength, sync, id, length, body[..bodyIndex], status, lastReject, discarded)
    }

    constructor (expectedId: u8, expectedLength: u8)
      ensures Valid() && fresh(body) && Value() == InitParser(expectedId, expectedLength)
    {
      body := new u8[MAX_BODY];
      this.expectedId, this.expectedLength := expectedId, expectedLength;
      sync, id, length, bodyIndex, status, lastReject, discarded := 0, 0, 0, 0, 0, RejectNone, 0;
    }

    method RejectFrame(why: Reject, bytes: nat) returns (r: Parsed)
      requires Valid()
      modifies this
      ensures Valid() && (Value(), r) == Rejected(old(Value()), why, bytes)
    {
      lastReject, discarded := why, Discard(discarded, bytes);
      sync, id, length, bodyIndex := 0, 0, 0, 0;
      r := FrameRejected;
    }

    /** The checksum loop. */
    method BodySum() returns (sum: u8)
      requires Valid() && 0 < length as int <= bodyIndex
      ensures sum == (id + length + Sum(body[..length as int - 1])) % 0x100
    {
      sum := (id + length) % 0x100;
      ghost var bytes := body[..];
      for i := 0 to length as int - 1
        invariant sum == (id + length + Sum(bytes[..i])) % 0x100
      {
        SumStep(id + length, bytes, i);
        sum := (sum + body[i]) % 0x100;
      }
      assert bytes[..length as int - 1] == body[..length as int - 1];
    }

    method Finish() returns (r: Parsed)
      requires Valid() && 2 <= length <= MAX_BODY && length as int <= bodyIndex
      modifies this
      ensures Valid() && (Value(), r) == CheckBody(old(Value()))
    {
      var sum := BodySum();
      var last := length as int - 1;
      assert body[..bodyIndex][..last] == body[..last];
      if body[last] != 0xFF - sum {
        r := RejectFrame(RejectChecksum, length + 4);
        return;
      }
      if id != expectedId {
        r := RejectFrame(RejectId, length + 4);
        return;
      }
      if length != (expectedLength + 2) % 0x100 {
        r := RejectFrame(RejectLength, length + 4);
        return;
      }
      status := body[0];
      r := if status != 0 then StatusError else FrameReady;
    }

    method PushByte(byte: u8) returns (r: Parsed)
      requires Valid() && Pushable(Value())
      modifies this, body
      ensures Valid() && (Value(), r) == Push(old(Value()), byte)
    {
      hide CheckBody;
      if sync < 2 {
        if byte == SYNC_BYTE {
          sync := sync + 1;
        } else {
          sync, lastReject, discarded := 0, RejectHeader, Discard(discarded, 1);
        }
        return NeedMore;
      }
      if sync == 2 {
        if byte == SYNC_BYTE { return NeedMore; }
        id, sync := byte, 3;
        return NeedMore;
      }
      if sync == 3 {
        length, bodyIndex := byte, 0;
        assert body[..bodyIndex] == [];
        if byte < 2 || byte > MAX_BODY {
          r := RejectFrame(RejectLength, 4);
          return;
        }
        sync := 4;
        return NeedMore;
      }
      body[bodyIndex] := byte;
      bodyIndex := bodyIndex + 1;
      assert body[..bodyIndex] == old(body[..bodyIndex]) + [byte];
      if bodyIndex < length as int { return NeedMore; }
      r := Finish();
    }
  }
}
