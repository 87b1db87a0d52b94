/** The window over the DMA ring: it feeds whatever the producer has written
    since the last look into the reply parser. */
module ServoWindow {
  import opened Words
  import opened Interpolation
  import opened ServoResponse

  const MAX_BYTES := 64

  datatype Window = Window(parser: Parser, next: u32, consumed: nat)

  datatype WindowResult = WindowNeedMore | WindowFrameReady(data: seq<u8>) | WindowStatusError | WindowOverflow

  function InitWindow(expectedId: u8, expectedLength: u8, start: u32): Window {
    Window(InitParser(expectedId, expectedLength), start, 0)
  }

  function Advance(next: u32, n: nat): u32 {
    (next + n) % TWO_32
  }

  /** The ring's bytes from absolute position `next` on. */
  function RingBytes(ring: seq<u8>, next: u32, n: nat): (b: seq<u8>)
    requires ring != []
    ensures |b| == n
  {
    seq(n, i requires 0 <= i < n => ring[Advance(next, i) % |ring|])
  }

  /** One look at the ring. A finished reply that was not taken leaves room for
      the byte after it, or nothing new has come. */
  function Consume(w: Window, ring: seq<u8>, producer: u32, outputCapacity: u8): (r: (Window, WindowResult))
    requires Pushable(w.parser) || producer == w.next
    ensures r.1 == WindowNeedMore && (Ready(w.parser) || producer != w.next) ==> Ready(r.0.parser)
    ensures r.0.parser.expectedLength == w.parser.expectedLength
  {
    var available := Sub32(producer, w.next);
    if ring == [] || outputCapacity < w.parser.expectedLength || available > |ring|
       || w.consumed + available > MAX_BYTES then
      (w, WindowOverflow)
    else
      var (parser, taken, result) := Feed(w.parser, RingBytes(ring, w.next, available));
      var after := Window(parser, Advance(w.next, taken), w.consumed + taken);
      match result
      case FrameReady =>
        if parser.expectedLength as int + 1 <= |parser.body| then (after, WindowFrameReady(Data(parser)))
        else (after, WindowOverflow)
      case StatusError => (after, WindowStatusError)
      case _ => (after, if after.consumed >= MAX_BYTES then WindowOverflow else WindowNeedMore)
  }

  // ---- Chunks ----

  /** The ring after the producer has written the first n bytes of a stream
      around it, from absolute position `start`: it still holds those from the
      m-th on, which the window has not taken yet. The absolute position counts
      modulo 2^32; the ring's index follows it over the wrap when the capacity
      divides 2^32. */
  ghost predicate Holds(ring: seq<u8>, start: u32, stream: seq<u8>, m: nat, n: nat) {
    && m <= n <= |stream| && 0 < |ring| && n - m <= |ring| && (TWO_32 % |ring| == 0 || start + n <= TWO_32)
    && forall k :: m <= k < n ==> ring[(start + k) % |ring|] == stream[k]
  }

  /** A look at the ring at some moment: its contents and the producer's count. */
  datatype Look = Look(ring: seq<u8>, written: nat)

  /** Looking again and again until there is an answer. */
  function ConsumeAll(w: Window, start: u32, looks: seq<Look>, outputCapacity: u8): (Window, WindowResult)
    requires Ready(w.parser)
    decreases |looks|
  {
    if looks == [] then (w, WindowNeedMore)
    else
      var (next, result) := Consume(w, looks[0].ring, Advance(start, looks[0].written), outputCapacity);
      if result != WindowNeedMore then (next, result) else ConsumeAll(next, start, looks[1..], outputCapacity)
  }

  /** The producer advances from look to look, stays below sixty-four bytes, and
      the ring holds what it has written since the look before. */
  ghost predicate Observed(start: u32, stream: seq<u8>, from: nat, looks: seq<Look>)
    decreases |looks|
  {
    looks == []
    || (from <= looks[0].written < MAX_BYTES && Holds(looks[0].ring, start, stream, from, looks[0].written)
        && Observed(start, stream, looks[0].written, looks[1..]))
  }

  function Written(from: nat, looks: seq<Look>): nat
    decreases |looks|
  {
    if looks == [] then from else Written(looks[0].written, looks[1..])
  }

  /** The answer that pushing bytes one by one gives. */
  function Answer(p: Parser, result: Parsed): WindowResult {
    match result
    case FrameReady => if p.expectedLength as int + 1 <= |p.body| then WindowFrameReady(Data(p)) else WindowOverflow
    case StatusError => WindowStatusError
    case _ => WindowNeedMore
  }

  lemma AdvanceApart(start: u32, m: nat, n: nat)
    requires m <= n < MAX_BYTES
    ensures Sub32(Advance(start, n), Advance(start, m)) == n - m
    ensures Advance(Advance(start, m), n - m) == Advance(start, n)
  {
    if start + n < TWO_32 {
      assert (start + n) % TWO_32 == start + n && (start + m) % TWO_32 == start + m;
    } else {
      assert (start + n) % TWO_32 == start + n - TWO_32;
      if start + m >= TWO_32 {
        assert (start + m) % TWO_32 == start + m - TWO_32;
      }
    }
  }

  /** The ring index does not notice the wrap of the absolute counter. */
  lemma RingIndex(capacity: nat, start: u32, k: nat)
    requires 0 < capacity && (TWO_32 % capacity == 0 || start + k < TWO_32)
    ensures Advance(start, k) % capacity == (start + k) % capacity
  {
    if TWO_32 <= start + k {
      var q, turns := (start + k) / TWO_32, TWO_32 / capacity;
      assert start + k == q * TWO_32 + Advance(start, k);
      assert TWO_32 == turns * capacity;
      assert q * TWO_32 == (q * turns) * capacity;
      Multiple(Advance(start, k), q * turns, capacity);
    } else {
      assert (start + k) % TWO_32 == start + k;
    }
  }

  /** Whole turns around a ring leave the index. */
  lemma Multiple(a: nat, q: nat, capacity: nat)
    requires 0 < capacity
    ensures (a + q * capacity) % capacity == a % capacity
  {
    var t, r := a / capacity, a % capacity;
    assert a == t * capacity + r;
    assert a + q * capacity == (t + q) * capacity + r;
    DivUnique(a + q * capacity, capacity, t + q, r);
  }

  lemma AdvanceTwice(start: u32, m: nat, i: nat)
    ensures Advance(Advance(start, m), i) == Advance(start, m + i)
  {
  }

  lemma RingShows(ring: seq<u8>, start: u32, stream: seq<u8>, m: nat, n: nat)
    requires Holds(ring, start, stream, m, n)
    ensures RingBytes(ring, Advance(start, m), n - m) == stream[m..n]
  {
    hide Advance;
    forall i | 0 <= i < n - m
      ensures RingBytes(ring, Advance(start, m), n - m)[i] == stream[m..n][i]
    {
      AdvanceTwice(start, m, i);
      RingIndex(|ring|, start, m + i);
    }
  }

  /** After m bytes without an answer. */
  ghost predicate At(w: Window, p: Parser, start: u32, stream: seq<u8>, m: nat) {
    && m <= |stream| && Ready(p) && w.next == Advance(start, m) && w.consumed == m < MAX_BYTES
    && Feed(p, stream[..m]) == (w.parser, m, NeedMore)
  }

  /** One look takes the window to where feeding the stream to that point does. */
  lemma LookFeeds(w: Window, p: Parser, start: u32, stream: seq<u8>, m: nat, look: Look, outputCapacity: u8)
    requires At(w, p, start, stream, m) && p.expectedLength <= outputCapacity
    requires m <= look.written < MAX_BYTES && Holds(look.ring, start, stream, m, look.written)
    ensures Ready(w.parser)
    ensures var (next, result) := Consume(w, look.ring, Advance(start, look.written), outputCapacity);
            var (parser, taken, fed) := Feed(p, stream[..look.written]);
            && next.parser == parser && next.consumed == taken && result == Answer(parser, fed)
            && (fed == NeedMore ==> At(next, p, start, stream, look.written))
  {
    hide Feed, Data, Pushable;
    var n := look.written;
    AdvanceApart(start, m, n);
    RingShows(look.ring, start, stream, m, n);
    assert stream[..n] == stream[..m] + stream[m..n];
    FeedConcat(p, stream[..m], stream[m..n]);
  }

  lemma {:induction false} LooksFeed(w: Window, p: Parser, start: u32, stream: seq<u8>, m: nat, looks: seq<Look>,
                                     outputCapacity: u8)
    requires At(w, p, start, stream, m) && p.expectedLength <= outputCapacity
    requires Observed(start, stream, m, looks)
    ensures Ready(w.parser) && Written(m, looks) <= |stream|
    ensures var (end, result) := ConsumeAll(w, start, looks, outputCapacity);
            var (parser, taken, fed) := Feed(p, stream[..Written(m, looks)]);
            end.parser == parser && end.consumed == taken && result == Answer(parser, fed)
    decreases |looks|
  {
    hide Consume, Data, Ready, Feed;
    AtReady(w, p, start, stream, m);
    if looks != [] {
      var n := looks[0].written;
      LookFeeds(w, p, start, stream, m, looks[0], outputCapacity);
      var (next, result) := Consume(w, looks[0].ring, Advance(start, n), outputCapacity);
      if result == WindowNeedMore {
        LooksFeed(next, p, start, stream, n, looks[1..], outputCapacity);
      } else {
        LaterBytesIgnored(p, start, stream, n, looks[1..]);
      }
    }
  }

  lemma AtReady(w: Window, p: Parser, start: u32, stream: seq<u8>, m: nat)
    requires At(w, p, start, stream, m)
    ensures Ready(w.parser)
  {
  }

  /** Once a reply is finished, what arrives later does not matter. */
  lemma {:induction false} LaterBytesIgnored(p: Parser, start: u32, stream: seq<u8>, n: nat, looks: seq<Look>)
    requires n <= |stream| && Ready(p) && Feed(p, stream[..n]).2 != NeedMore && Observed(start, stream, n, looks)
    ensures Written(n, looks) <= |stream|
    ensures Feed(p, stream[..Written(n, looks)]) == Feed(p, stream[..n])
    decreases |looks|
  {
    hide Feed;
    if looks != [] {
      var k := looks[0].written;
      assert stream[..k] == stream[..n] + stream[n..k];
      FeedConcat(p, stream[..n], stream[n..k]);
      LaterBytesIgnored(p, start, stream, k, looks[1..]);
    }
  }

  /** Chunking is irrelevant. While fewer than sixty-four bytes have arrived,
      any sequence of looks at the ring gives the same parser, the same number
      of bytes taken, the same result and the same data as pushing the bytes of
      the stream one by one. */
  lemma ChunkingIsIrrelevant(expectedId: u8, expectedLength: u8, start: u32, stream: seq<u8>, looks: seq<Look>,
                             outputCapacity: u8)
    requires expectedLength <= outputCapacity && Observed(start, stream, 0, looks)
    ensures Written(0, looks) <= |stream|
    ensures var (end, result) := ConsumeAll(InitWindow(expectedId, expectedLength, start), start, looks,
        outputCapacity);
            var (parser, taken, fed) := Feed(InitParser(expectedId, expectedLength), stream[..Written(0, looks)]);
            end.parser == parser && end.consumed == taken && result == Answer(parser, fed)
  {
    hide Feed, ConsumeAll;
    var w, p := InitWindow(expectedId, expectedLength, start), InitParser(expectedId, expectedLength);
    FeedNothing(p);
    assert stream[..0] == [];
    assert Advance(start, 0) == start;
    LooksFeed(w, p, start, stream, 0, looks, outputCapacity);
  }

  lemma FeedNothing(p: Parser)
    ensures Feed(p, []) == (p, 0, NeedMore)
  {
  }

  /** And what it hands out is in the stream: the bytes taken end with exactly
      the expected servo's reply carrying that data. */
  lemma WindowFindsReply(expectedId: u8, expectedLength: u8, start: u32, stream: seq<u8>, looks: seq<Look>,
                         outputCapacity: u8)
    requires expectedLength <= outputCapacity && Observed(start, stream, 0, looks)
    requires ConsumeAll(InitWindow(expectedId, expectedLength, start), start, looks, outputCapacity).1.WindowFrameReady?
    ensures var (end, result) := ConsumeAll(InitWindow(expectedId, expectedLength, start), start, looks,
        outputCapacity);
            && end.consumed <= |stream| && |result.data| + 2 <= MAX_BODY
            && |result.data| == expectedLength as int
            && EndsWith(stream[..end.consumed], ReplyBytes(expectedId, 0, result.data))
  {
    hide Feed, ConsumeAll, ReplyBytes, EndsWith;
    ChunkingIsIrrelevant(expectedId, expectedLength, start, stream, looks, outputCapacity);
    var p := InitParser(expectedId, expectedLength);
    var bytes := stream[..Written(0, looks)];
    StartExplains(p);
    FeedFindsReply(p, [], bytes);
    assert [] + bytes[..Feed(p, bytes).1] == stream[..Feed(p, bytes).1];
  }

  lemma StartExplains(p: Parser)
    requires p.sync == 0
    ensures Explains(p, [])
  {
  }

  /** The window as the firmware keeps it. */
  class RxWindow {
    const parser: ResponseParser
    var next: u32
    var consumed: nat

    ghost predicate Valid()
      reads this, parser
    {
      parser.Valid()
    }

    function Value(): Window
      requires Valid()
      reads this, parser, parser.body
    {
      Window(parser.Value(), next, consumed)
    }

    constructor (expectedId: u8, expectedLength: u8, start: u32)
      ensures Valid() && fresh(parser) && fresh(parser.body)
      ensures Value() == InitWindow(expectedId, expectedLength, start)
    {
      parser := new ResponseParser(expectedId, expectedLength);
      next, consumed := start, 0;
    }

    /** The consumption loop: stop at the first finished reply. */
    method PushAvailable(ring: array<u8>, available: nat) returns (r: Parsed)
      requires Valid() && (Pushable(parser.Value()) || available == 0) && 0 < ring.Length && ring != parser.body
      modifies this, parser, parser.body
      ensures Valid()
      ensures var (p, taken, result) := Feed(old(parser.Value()), RingBytes(ring[..], old(next), available));
              parser.Value() == p && r == result && next == Advance(old(next),
                  taken) && consumed == old(consumed) + taken
    {
      hide Push, Feed, Advance, RingBytes, Ready;
      ghost var bytes := RingBytes(ring[..], next, available);
      ghost var start := parser.Value();
      var i := 0;
      AdvanceNone(next);
      FeedNothing(start);
      assert bytes[..0] == [];
      while i < available
        invariant i <= available && Valid() && (i < available ==> Pushable(parser.Value()) && Pushable(start))
        invariant bytes == RingBytes(ring[..], old(next), available)
        invariant next == Advance(old(next), i) && consumed == old(consumed) + i
        invariant Feed(start, bytes[..i]) == (parser.Value(), i, NeedMore)
        decreases available - i
      {
        RingByteAt(ring[..], old(next), available, i);
        var byte := ring[next as int % ring.Length];
        FeedNext(start, bytes, i, parser.Value());
        AdvanceOnce(old(next), i);
        var parsed := parser.PushByte(byte);
        ReadyPushes(parser.Value());
        next := (next + 1) % TWO_32;
        consumed := consumed + 1;
        i := i + 1;
        if Final(parsed) {
          FeedStopped(start, bytes, i);
          return parsed;
        }
      }
      assert bytes[..available] == bytes;
      r := NeedMore;
    }

    method Look(ring: array<u8>, producer: u32, outputCapacity: u8) returns (r: WindowResult)
      requires Valid() && (Pushable(parser.Value()) || producer == next) && ring != parser.body
      modifies this, parser, parser.body
      ensures Valid() && (Value(), r) == Consume(old(Value()), ring[..], producer, outputCapacity)
    {
      hide Feed;
      var available := Sub32(producer, next);
      if ring.Length == 0 || outputCapacity < parser.expectedLength || available as int > ring.Length
         || consumed + available > MAX_BYTES {
        return WindowOverflow;
      }
      var parsed := PushAvailable(ring, available);
      if parsed == FrameReady {
        if parser.expectedLength as int + 1 <= parser.bodyIndex {
          var n := 1 + parser.expectedLength as int;
          ghost var taken := parser.body[..parser.bodyIndex];
          assert taken[1..n] == parser.body[1..n];
          return WindowFrameReady(parser.body[1..n]);
        }
        return WindowOverflow;
      }
      if parsed == StatusError { return WindowStatusError; }
      r := if consumed >= MAX_BYTES then WindowOverflow else WindowNeedMore;
    }
  }

  lemma ReadyPushes(p: Parser)
    ensures Ready(p) ==> Pushable(p)
  {
  }

  lemma AdvanceNone(start: u32)
    ensures Advance(start, 0) == start
  {
  }

  lemma RingByteAt(ring: seq<u8>, start: u32, n: nat, i: nat)
    requires i < n && ring != []
    ensures RingBytes(ring, start, n)[i] == ring[Advance(start, i) % |ring|]
  {
  }

  lemma FeedStopped(p: Parser, bytes: seq<u8>, i: nat)
    requires i <= |bytes| && Pushable(p) && Feed(p, bytes[..i]).2 != NeedMore
    ensures Feed(p, bytes) == Feed(p, bytes[..i])
  {
    hide Push;
    assert bytes[..i] + bytes[i..] == bytes;
    FeedConcat(p, bytes[..i], bytes[i..]);
  }

  lemma AdvanceOnce(start: u32, i: nat)
    ensures (Advance(start, i) + 1) % TWO_32 == Advance(start, i + 1)
  {
  }

  /** One more byte of a stream that has given no answer yet. */
  lemma FeedNext(start: Parser, bytes: seq<u8>, i: nat, p: Parser)
    requires i < |bytes| && Pushable(start) && Feed(start, bytes[..i]) == (p, i, NeedMore)
    ensures Pushable(p)
    ensures Feed(start, bytes[..i + 1])
         == (Push(p, bytes[i]).0, i + 1, if Final(Push(p, bytes[i]).1) then Push(p, bytes[i]).1 else NeedMore)
  {
    hide Push, Feed;
    assert bytes[..i + 1] == bytes[..i] + [bytes[i]];
    FeedConcat(start, bytes[..i], [bytes[i]]);
    FeedSingle(p, bytes[i]);
  }

  lemma FeedSingle(p: Parser, byte: u8)
    requires Pushable(p)
    ensures Feed(p, [byte]) == (Push(p, byte).0, 1, if Final(Push(p, byte).1) then Push(p, byte).1 else NeedMore)
  {
    hide Push;
  }
}
