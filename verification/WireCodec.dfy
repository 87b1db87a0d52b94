/** The host's encoders for stream payloads, and what ties them to the
    firmware's decoders. */
module WireCodec {
  import opened Words
  import opened StreamContract
  import opened StreamSession
  import opened PlanRefinement

  // ---- Host values: Python integers of any size ----

  datatype HostSample = HostSample(applyTick: int, positions: seq<int>)

  datatype HostBatch = HostBatch(
    horizonEndTick: int, arbiterEpoch: int, samples: seq<HostSample>, armMask: int, spliceAtTick: int)

  datatype HostPolicy = HostPolicy(
    minimumStartSamples: int, minimumLeadMs: int, horizonEndTick: int, maximumLeadMs: int,
    commandTimeoutMs: int, maximumApplyLatenessMs: int, trackingErrorLimit: seq<int>,
    maximumStep: seq<int>, armMask: int)

  predicate FitsU32(x: int) {
    0 <= x < TWO_32
  }

  predicate FitsVec(v: seq<int>) {
    |v| == JOINT_COUNT && forall j :: 0 <= j < |v| ==> -TWO_31 <= v[j] < TWO_31
  }

  function ToVec(v: seq<int>): Vec
    requires FitsVec(v)
  {
    seq(JOINT_COUNT, j requires 0 <= j < JOINT_COUNT => v[j])
  }

  /** `(a - b) & 0xFFFFFFFF`. */
  function Distance(a: int, b: int): u32 {
    (a - b) % TWO_32
  }

  // ---- Bytes ----

  /** The first n joints, packed. */
  function WriteJoints(v: Vec, n: nat): (b: seq<u8>)
    requires n <= JOINT_COUNT
    ensures |b| == 4 * n
  {
    if n == 0 then [] else WriteJoints(v, n - 1) + WriteU32(AsU32(v[n - 1]))
  }

  function SampleBytes(offset: u32, pos: Vec): (b: seq<u8>)
    ensures |b| == SAMPLE_WIRE_SIZE
  {
    WriteU32(offset) + WriteJoints(pos, JOINT_COUNT)
  }

  function SamplesBytes(first: u32, samples: seq<Setpoint>): (b: seq<u8>)
    ensures |b| == SAMPLE_WIRE_SIZE * |samples|
  {
    if samples == [] then []
    else
      var last := samples[|samples| - 1];
      SamplesBytes(first, samples[..|samples| - 1]) + SampleBytes(Sub32(last.tick, first), last.pos)
  }

  function HeaderBytes(first: u32, horizon: u32, epoch: u32, spliceAt: u32, count: u8, mask: u8): (b: seq<u8>)
    ensures |b| == BATCH_HEADER_SIZE
  {
    WriteU32(first) + WriteU32(horizon) + WriteU32(epoch) + WriteU32(spliceAt) + [count, mask] + WriteU16(0)
  }

  // ---- The batch encoder ----

  predicate SampleEncodes(samples: seq<HostSample>, i: nat)
    requires i < |samples|
  {
    && FitsU32(samples[i].applyTick)
    && FitsVec(samples[i].positions)
    && (0 < i ==> 0 < Distance(samples[i].applyTick, samples[i - 1].applyTick) < TWO_31)
    && Distance(samples[i].applyTick, samples[0].applyTick) < TWO_31
  }

  predicate HeaderEncodes(b: HostBatch, kind: Kind) {
    && 0 < b.armMask <= ARM_MASK_BOTH
    && FitsU32(b.horizonEndTick) && FitsU32(b.arbiterEpoch) && FitsU32(b.spliceAtTick)
    && 1 <= |b.samples| <= WIRE_MAX_SAMPLES
    && (kind == Append <==> b.spliceAtTick == 0)
  }

  predicate SamplesEncode(samples: seq<HostSample>) {
    forall i :: 0 <= i < |samples| ==> SampleEncodes(samples, i)
  }

  function ToSetpoints(samples: seq<HostSample>): (r: seq<Setpoint>)
    requires SamplesEncode(samples)
  {
    seq(|samples|, i requires 0 <= i < |samples| =>
      assert SampleEncodes(samples, i); Setpoint(samples[i].applyTick, ToVec(samples[i].positions)))
  }

  function EncodeBatch(b: HostBatch, kind: Kind): Option<seq<u8>> {
    if !HeaderEncodes(b, kind) || !SamplesEncode(b.samples) then None
    else
      var samples := ToSetpoints(b.samples);
      Some(HeaderBytes(samples[0].tick, b.horizonEndTick, b.arbiterEpoch, b.spliceAtTick, |samples|, b.armMask)
           + SamplesBytes(samples[0].tick, samples))
  }

  /** The sample loop of the encoder: it packs sample after sample and gives up
      at the first that does not fit. */
  method EncodeSamplesLoop(samples: seq<HostSample>) returns (r: Option<seq<u8>>)
    requires 0 < |samples| && FitsU32(samples[0].applyTick)
    ensures r.Some? <==> SamplesEncode(samples)
    ensures r.Some? ==> r.value == SamplesBytes(samples[0].applyTick, ToSetpoints(samples))
  {
    hide FitsVec, Distance, TickAfter, Sub32;
    var first: u32 := samples[0].applyTick;
    var packed: seq<u8> := [];
    var previousTick := first as int;
    ghost var done: seq<Setpoint> := [];
    for i := 0 to |samples|
      invariant SamplesEncode(samples[..i])
      invariant 0 < i ==> previousTick == samples[i - 1].applyTick
      invariant done == ToSetpoints(samples[..i])
      invariant packed == SamplesBytes(first, done)
    {
      var sample := samples[i];
      var offset := Distance(sample.applyTick, first);
      if !FitsU32(sample.applyTick) || !FitsVec(sample.positions)
         || (0 < i && !(0 < Distance(sample.applyTick, previousTick) < TWO_31))
         || offset >= TWO_31 {
        assert !SampleEncodes(samples, i);
        return None;
      }
      EncodesOneMore(samples, i);
      var point := Setpoint(sample.applyTick, ToVec(sample.positions));
      DistanceIsSub(sample.applyTick, first);
      packed := packed + SampleBytes(offset, point.pos);
      done := done + [point];
      assert done[..i] == ToSetpoints(samples[..i]);
      previousTick := sample.applyTick;
    }
    assert samples[..|samples|] == samples;
    r := Some(packed);
  }

  lemma EncodesOneMore(samples: seq<HostSample>, i: nat)
    requires i < |samples| && SamplesEncode(samples[..i]) && SampleEncodes(samples, i)
    ensures SamplesEncode(samples[..i + 1])
    ensures ToSetpoints(samples[..i + 1])
         == ToSetpoints(samples[..i]) + [Setpoint(samples[i].applyTick, ToVec(samples[i].positions))]
  {
    hide FitsVec, Distance;
    var longer := samples[..i + 1];
    forall k | 0 <= k < |longer|
      ensures SampleEncodes(longer, k)
    {
      if k < i {
        assert SampleEncodes(samples[..i], k);
      }
    }
  }

  /** The encoder as the host runs it. */
  method EncodeBatchLoop(b: HostBatch, kind: Kind) returns (r: Option<seq<u8>>)
    ensures r == EncodeBatch(b, kind)
  {
    if !HeaderEncodes(b, kind) { return None; }
    if !FitsU32(b.samples[0].applyTick) {
      assert !SampleEncodes(b.samples, 0);
      return None;
    }
    var packed := EncodeSamplesLoop(b.samples);
    if packed.None? { return None; }
    r := Some(HeaderBytes(b.samples[0].applyTick, b.horizonEndTick, b.arbiterEpoch, b.spliceAtTick, |b.samples|,
        b.armMask)
              + packed.value);
  }

  lemma DistanceIsSub(a: u32, b: u32)
    ensures Distance(a, b) == Sub32(a, b)
    ensures 0 < Distance(a, b) < TWO_31 <==> TickAfter(a, b)
  {
    TickOrdersAgree(a, b);
    if b <= a {
      assert (a - b) % TWO_32 == a - b;
    } else {
      assert (a - b) % TWO_32 == a - b + TWO_32;
    }
  }

  /** A decoded batch, as the host would write it down. */
  function AsHostBatch(b: Batch): HostBatch {
    HostBatch(b.horizonEndTick, b.arbiterEpoch,
              seq(|b.samples|, i requires 0 <= i < |b.samples| => HostSample(b.samples[i].tick, b.samples[i].pos)),
              b.armMask, b.spliceAtTick)
  }

  // ---- Reading back ----

  lemma {:induction false} JointAt(v: Vec, n: nat, j: nat)
    requires j < n <= JOINT_COUNT
    ensures WriteJoints(v, n)[4 * j..4 * j + 4] == WriteU32(AsU32(v[j]))
  {
    if j < n - 1 {
      JointAt(v, n - 1, j);
      assert WriteJoints(v, n)[4 * j..4 * j + 4] == WriteJoints(v, n - 1)[4 * j..4 * j + 4];
    }
  }

  lemma SliceOfSlice(d: seq<u8>, at: nat, n: nat, lo: nat, hi: nat)
    requires at + n <= |d| && lo <= hi <= n
    ensures d[at..at + n][lo..hi] == d[at + lo..at + hi]
  {
    var part := d[at..at + n];
    forall k | lo <= k < hi
      ensures part[k] == d[at + k]
    {
    }
  }

  /** A packed vector reads back as itself, and nothing else packs to it. */
  lemma VecSpelled(d: seq<u8>, at: nat, v: Vec)
    requires at + 4 * JOINT_COUNT <= |d|
    ensures d[at..at + 4 * JOINT_COUNT] == WriteJoints(v, JOINT_COUNT) <==> ReadVec(d, at) == v
  {
    hide WriteU32, ReadU32, WriteJoints;
    var part, packed := d[at..at + 4 * JOINT_COUNT], WriteJoints(v, JOINT_COUNT);
    if part == packed {
      forall j | 0 <= j < JOINT_COUNT
        ensures ReadVec(d, at)[j] == v[j]
      {
        JointAt(v, JOINT_COUNT, j);
        SliceOfSlice(d, at, 4 * JOINT_COUNT, 4 * j, 4 * j + 4);
        ReadU32At(d, at + 4 * j, WriteU32(AsU32(v[j])));
      }
      assert ReadVec(d, at) == v;
    }
    if ReadVec(d, at) == v {
      forall k | 0 <= k < 4 * JOINT_COUNT
        ensures part[k] == packed[k]
      {
        var j := k / 4;
        JointAt(v, JOINT_COUNT, j);
        WordsDetermine32(d, at + 4 * j);
        assert AsU32(v[j]) == ReadU32(d, at + 4 * j) by {
          assert ReadVec(d, at)[j] == v[j];
        }
        assert packed[k] == packed[4 * j..4 * j + 4][k - 4 * j];
        SliceOfSlice(d, at, 4 * JOINT_COUNT, 4 * j, 4 * j + 4);
        assert part[k] == part[4 * j..4 * j + 4][k - 4 * j];
      }
    }
  }

  lemma WordSpelled(d: seq<u8>, at: nat, w: u32)
    requires at + 4 <= |d|
    ensures d[at..at + 4] == WriteU32(w) <==> ReadU32(d, at) == w
  {
    hide WriteU32, ReadU32;
    WordsDetermine32(d, at);
    if d[at..at + 4] == WriteU32(w) {
      ReadU32At(d, at, WriteU32(w));
    }
  }

  /** Fifty-two bytes spell a sample exactly when they read back as it. */
  lemma SampleSpelled(d: seq<u8>, at: nat, first: u32, s: Setpoint)
    requires at + SAMPLE_WIRE_SIZE <= |d|
    ensures d[at..at + SAMPLE_WIRE_SIZE] == SampleBytes(Sub32(s.tick, first), s.pos)
       <==> Setpoint(Add32(first, ReadU32(d, at)), ReadVec(d, at + 4)) == s
  {
    hide WriteU32, ReadU32, WriteJoints, ReadVec;
    var part := d[at..at + SAMPLE_WIRE_SIZE];
    assert part == d[at..at + 4] + d[at + 4..at + SAMPLE_WIRE_SIZE];
    WordSpelled(d, at, Sub32(s.tick, first));
    VecSpelled(d, at + 4, s.pos);
    if part == SampleBytes(Sub32(s.tick, first), s.pos) {
      assert part[..4] == d[at..at + 4] && part[4..] == d[at + 4..at + SAMPLE_WIRE_SIZE];
    }
  }

  lemma {:induction false} SampleSlice(first: u32, samples: seq<Setpoint>, i: nat)
    requires i < |samples|
    ensures SamplesBytes(first, samples)[SAMPLE_WIRE_SIZE * i..SAMPLE_WIRE_SIZE * (i + 1)]
         == SampleBytes(Sub32(samples[i].tick, first), samples[i].pos)
  {
    hide SampleBytes;
    if i < |samples| - 1 {
      var front := samples[..|samples| - 1];
      SampleSlice(first, front, i);
      var last := samples[|samples| - 1];
      SliceOfFront(SamplesBytes(first, front), SampleBytes(Sub32(last.tick, first), last.pos),
        SAMPLE_WIRE_SIZE * i, SAMPLE_WIRE_SIZE * (i + 1));
    }
  }

  lemma SliceOfFront(a: seq<u8>, b: seq<u8>, from: nat, to: nat)
    requires from <= to <= |a|
    ensures (a + b)[from..to] == a[from..to]
  {
  }

  /** A run of bytes that spells each sample in its place is their packing. */
  lemma {:induction false} SlicesMakeAll(d: seq<u8>, first: u32, samples: seq<Setpoint>)
    requires |d| == SAMPLE_WIRE_SIZE * |samples|
    requires forall i :: 0 <= i < |samples| ==>
               d[SAMPLE_WIRE_SIZE * i..SAMPLE_WIRE_SIZE * (i + 1)] == SampleBytes(Sub32(samples[i].tick, first),
                   samples[i].pos)
    ensures d == SamplesBytes(first, samples)
    decreases |samples|
  {
    hide SampleBytes;
    if samples != [] {
      var n := |samples| - 1;
      var front := d[..SAMPLE_WIRE_SIZE * n];
      forall i | 0 <= i < n
        ensures front[SAMPLE_WIRE_SIZE * i..SAMPLE_WIRE_SIZE * (i + 1)]
             == SampleBytes(Sub32(samples[i].tick, first), samples[i].pos)
      {
        assert front[SAMPLE_WIRE_SIZE * i..SAMPLE_WIRE_SIZE * (i + 1)]
          == d[SAMPLE_WIRE_SIZE * i..SAMPLE_WIRE_SIZE * (i + 1)];
      }
      SlicesMakeAll(front, first, samples[..n]);
      assert d == front + d[SAMPLE_WIRE_SIZE * n..SAMPLE_WIRE_SIZE * (n + 1)];
    }
  }

  /** The sample part of a payload spells exactly the samples it reads as. */
  lemma SamplesSpelled(payload: seq<u8>, samples: seq<Setpoint>)
    requires |payload| == BATCH_HEADER_SIZE + SAMPLE_WIRE_SIZE * |samples|
    ensures payload[BATCH_HEADER_SIZE..] == SamplesBytes(ReadU32(payload, 0), samples)
       <==> WireSamples(payload, |samples|) == samples
  {
    hide SampleBytes, SamplesBytes, ReadU32, ReadVec, WireSample;
    var first, tail := ReadU32(payload, 0), payload[BATCH_HEADER_SIZE..];
    forall i | 0 <= i < |samples|
      ensures tail[SAMPLE_WIRE_SIZE * i..SAMPLE_WIRE_SIZE * (i + 1)]
                == SampleBytes(Sub32(samples[i].tick, first), samples[i].pos)
         <==> WireSample(payload, i) == samples[i]
    {
      SliceSpelled(payload, i, samples[i]);
    }
    if tail == SamplesBytes(first, samples) {
      forall i | 0 <= i < |samples|
        ensures WireSamples(payload, |samples|)[i] == samples[i]
      {
        SampleSlice(first, samples, i);
      }
      assert WireSamples(payload, |samples|) == samples;
    }
    if WireSamples(payload, |samples|) == samples {
      forall i | 0 <= i < |samples|
        ensures WireSample(payload, i) == samples[i]
      {
        assert WireSamples(payload, |samples|)[i] == samples[i];
      }
      SlicesMakeAll(tail, first, samples);
    }
  }

  /** The i-th slice spells a sample exactly when it reads back as it. */
  lemma SliceSpelled(payload: seq<u8>, i: nat, s: Setpoint)
    requires BATCH_HEADER_SIZE + SAMPLE_WIRE_SIZE * (i + 1) <= |payload|
    ensures payload[BATCH_HEADER_SIZE..][SAMPLE_WIRE_SIZE * i..SAMPLE_WIRE_SIZE * (i + 1)]
              == SampleBytes(Sub32(s.tick, ReadU32(payload, 0)), s.pos)
       <==> WireSample(payload, i) == s
  {
    hide SampleBytes, ReadU32, ReadVec;
    var at := BATCH_HEADER_SIZE + i * SAMPLE_WIRE_SIZE;
    assert payload[BATCH_HEADER_SIZE..][SAMPLE_WIRE_SIZE * i..SAMPLE_WIRE_SIZE * (i + 1)]
        == payload[at..at + SAMPLE_WIRE_SIZE];
    SampleSpelled(payload, at, ReadU32(payload, 0), s);
  }

  /** A payload starts with this header exactly when it reads back as it. */
  lemma HeaderSpelled(d: seq<u8>, first: u32, horizon: u32, epoch: u32, spliceAt: u32, count: u8, mask: u8)
    requires BATCH_HEADER_SIZE <= |d|
    ensures d[..BATCH_HEADER_SIZE] == HeaderBytes(first, horizon, epoch, spliceAt, count, mask)
       <==> && ReadU32(d, 0) == first && ReadU32(d, 4) == horizon && ReadU32(d, 8) == epoch
            && ReadU32(d, 12) == spliceAt && d[16] == count && d[17] == mask && ReadU16(d, 18) == 0
  {
    hide WriteU32, ReadU32;
    var h := d[..BATCH_HEADER_SIZE];
    WordSpelled(d, 0, first);
    WordSpelled(d, 4, horizon);
    WordSpelled(d, 8, epoch);
    WordSpelled(d, 12, spliceAt);
    assert h == d[0..4] + d[4..8] + d[8..12] + d[12..16] + [d[16], d[17]] + d[18..20];
    assert d[18..20] == [d[18], d[19]];
    if h == HeaderBytes(first, horizon, epoch, spliceAt, count, mask) {
      assert h[0..4] == d[0..4] && h[4..8] == d[4..8] && h[8..12] == d[8..12] && h[12..16] == d[12..16];
      assert h[16] == d[16] && h[17] == d[17] && h[18] == d[18] && h[19] == d[19];
    }
  }

  /** The bytes of a batch whose first tick is that of its first sample. */
  function BatchBytes(b: Batch): seq<u8>
    requires 0 < |b.samples| <= WIRE_MAX_SAMPLES
  {
    HeaderBytes(b.firstApplyTick, b.horizonEndTick, b.arbiterEpoch, b.spliceAtTick, |b.samples|, b.armMask)
    + SamplesBytes(b.firstApplyTick, b.samples)
  }

  /** A payload is the packing of a batch exactly when every field and sample
      of it reads back. */
  lemma BatchSpelled(b: Batch, payload: seq<u8>)
    requires 0 < |b.samples| <= WIRE_MAX_SAMPLES
    ensures payload == BatchBytes(b)
       <==> && |payload| == BATCH_HEADER_SIZE + SAMPLE_WIRE_SIZE * |b.samples|
            && ReadU32(payload, 0) == b.firstApplyTick && ReadU32(payload, 4) == b.horizonEndTick
            && ReadU32(payload, 8) == b.arbiterEpoch && ReadU32(payload, 12) == b.spliceAtTick
            && payload[16] == |b.samples| && payload[17] == b.armMask && ReadU16(payload, 18) == 0
            && WireSamples(payload, |b.samples|) == b.samples
  {
    hide WriteU32, ReadU32, ReadU16, WireSamples, HeaderBytes, SamplesBytes;
    if |payload| == BATCH_HEADER_SIZE + SAMPLE_WIRE_SIZE * |b.samples| {
      HeaderSpelled(payload, b.firstApplyTick, b.horizonEndTick, b.arbiterEpoch, b.spliceAtTick, |b.samples|,
          b.armMask);
      SamplesSpelled(payload, b.samples);
      assert payload == payload[..BATCH_HEADER_SIZE] + payload[BATCH_HEADER_SIZE..];
      if payload == BatchBytes(b) {
        assert payload[..BATCH_HEADER_SIZE]
            == HeaderBytes(b.firstApplyTick, b.horizonEndTick, b.arbiterEpoch, b.spliceAtTick, |b.samples|, b.armMask);
        assert payload[BATCH_HEADER_SIZE..] == SamplesBytes(b.firstApplyTick, b.samples);
      }
    }
  }

  lemma SampleEncodesWhen(b: Batch, i: nat)
    requires i < |b.samples| && b.firstApplyTick == b.samples[0].tick
    ensures SampleEncodes(AsHostBatch(b).samples, i)
       <==> (0 < i ==> TickAfter(b.samples[i].tick, b.samples[i - 1].tick))
            && Sub32(b.samples[i].tick, b.firstApplyTick) < TWO_31
    ensures ToVec(AsHostBatch(b).samples[i].positions) == b.samples[i].pos
  {
    hide Distance, TickAfter, Sub32;
    DistanceIsSub(b.samples[i].tick, b.firstApplyTick);
    if 0 < i {
      DistanceIsSub(b.samples[i].tick, b.samples[i - 1].tick);
    }
  }

  /** What the encoder asks of a batch, in the firmware's words. */
  lemma EncodesWhenOrdered(b: Batch)
    requires 0 < |b.samples| <= WIRE_MAX_SAMPLES && b.firstApplyTick == b.samples[0].tick
    ensures SamplesEncode(AsHostBatch(b).samples) <==> NeighboursIncrease(b.samples) && WireOrdered(b)
    ensures SamplesEncode(AsHostBatch(b).samples) ==> ToSetpoints(AsHostBatch(b).samples) == b.samples
  {
    hide TickAfter, Sub32, SampleEncodes;
    var host := AsHostBatch(b).samples;
    if SamplesEncode(host) {
      forall i | 0 <= i < |b.samples|
        ensures Sub32(b.samples[i].tick, b.firstApplyTick) < TWO_31
        ensures 0 < i ==> TickAfter(b.samples[i].tick, b.samples[i - 1].tick)
        ensures ToSetpoints(host)[i] == b.samples[i]
      {
        SampleEncodesWhen(b, i);
      }
      assert ToSetpoints(host) == b.samples;
    }
    if NeighboursIncrease(b.samples) && WireOrdered(b) {
      forall i | 0 <= i < |host|
        ensures SampleEncodes(host, i)
      {
        SampleEncodesWhen(b, i);
      }
    }
  }

  /** Wire round trip, both ways. The host can encode a batch, and encodes it
      as these bytes, exactly when the firmware decodes these bytes as that
      batch and no sample lies 2^31 ms or more past the first. */
  lemma BatchWire(b: Batch, kind: Kind, payload: seq<u8>)
    ensures EncodeBatch(AsHostBatch(b), kind) == Some(payload) && b.firstApplyTick == b.samples[0].tick
       <==> DecodeBatch(payload, kind) == Ok(b) && WireOrdered(b)
  {
    hide ReadU32, ReadU16, WireSamples, HeaderBytes, SamplesBytes, BatchBytes, SamplesEncode, NeighboursIncrease,
         WireOrdered, ToSetpoints;
    if 0 < |b.samples| <= WIRE_MAX_SAMPLES && b.firstApplyTick == b.samples[0].tick {
      BatchSpelled(b, payload);
      EncodesWhenOrdered(b);
      PacksAsBatch(b, kind);
      if |payload| == BATCH_HEADER_SIZE + SAMPLE_WIRE_SIZE * |b.samples| {
        FirstOffset(payload, b);
      }
    }
    if DecodeBatch(payload, kind) == Ok(b) {
      DecodedFirst(payload, kind);
    }
  }

  lemma PacksAsBatch(b: Batch, kind: Kind)
    requires 0 < |b.samples| <= WIRE_MAX_SAMPLES && b.firstApplyTick == b.samples[0].tick
    requires SamplesEncode(AsHostBatch(b).samples) ==> ToSetpoints(AsHostBatch(b).samples) == b.samples
    ensures EncodeBatch(AsHostBatch(b), kind)
         == if HeaderEncodes(AsHostBatch(b),
             kind) && SamplesEncode(AsHostBatch(b).samples) then Some(BatchBytes(b)) else None
  {
    hide HeaderBytes, SamplesBytes, SamplesEncode, ToSetpoints;
  }

  lemma DecodedFirst(payload: seq<u8>, kind: Kind)
    requires DecodeBatch(payload, kind).Ok?
    ensures var b := DecodeBatch(payload, kind).value;
            0 < |b.samples| <= WIRE_MAX_SAMPLES && b.firstApplyTick == b.samples[0].tick
  {
    hide ReadU32, ReadVec, NeighboursIncrease;
    assert WireSamples(payload, payload[16])[0] == WireSample(payload, 0);
  }

  /** The first tick is the first sample's exactly when its offset is zero. */
  lemma FirstOffset(payload: seq<u8>, b: Batch)
    requires 0 < |b.samples| && |payload| == BATCH_HEADER_SIZE + SAMPLE_WIRE_SIZE * |b.samples|
    ensures WireSamples(payload, |b.samples|) == b.samples && ReadU32(payload, 0) == b.firstApplyTick ==>
              (ReadU32(payload, BATCH_HEADER_SIZE) == 0 <==> b.firstApplyTick == b.samples[0].tick)
  {
    hide ReadU32, ReadVec;
    assert WireSamples(payload, |b.samples|)[0] == WireSample(payload, 0);
  }

  // ---- The open request ----

  predicate PolicyEncodes(p: HostPolicy) {
    && 0 < p.armMask <= ARM_MASK_BOTH && 0 <= p.minimumStartSamples < TWO_16
    && FitsU32(p.minimumLeadMs) && FitsU32(p.horizonEndTick) && FitsU32(p.maximumLeadMs)
    && FitsU32(p.commandTimeoutMs) && FitsU32(p.maximumApplyLatenessMs)
    && FitsVec(p.trackingErrorLimit) && FitsVec(p.maximumStep)
  }

  function PolicyBytes(p: Policy): (b: seq<u8>)
    ensures |b| == STREAM_OPEN_WIRE_SIZE
  {
    WriteU16(p.minimumStartSamples) + [p.armMask, 0] + WriteU32(p.minimumLeadMs) + WriteU32(p.horizonEndTick)
    + WriteU32(p.maximumLeadMs) + WriteU32(p.commandTimeoutMs) + WriteU32(p.maximumApplyLatenessMs)
    + WriteJoints(p.trackingErrorLimit, JOINT_COUNT) + WriteJoints(p.maximumStep, JOINT_COUNT)
  }

  function EncodeOpen(p: HostPolicy): Option<seq<u8>> {
    if !PolicyEncodes(p) then None
    else Some(PolicyBytes(Policy(p.minimumStartSamples, p.armMask, p.minimumLeadMs, p.horizonEndTick, p.maximumLeadMs,
                                 p.commandTimeoutMs, p.maximumApplyLatenessMs, ToVec(p.trackingErrorLimit),
                                 ToVec(p.maximumStep))))
  }

  function AsHostPolicy(p: Policy): HostPolicy {
    HostPolicy(p.minimumStartSamples, p.minimumLeadMs, p.horizonEndTick, p.maximumLeadMs, p.commandTimeoutMs,
               p.maximumApplyLatenessMs, p.trackingErrorLimit, p.maximumStep, p.armMask)
  }

  lemma PolicySpelled(p: Policy, d: seq<u8>)
    requires |d| == STREAM_OPEN_WIRE_SIZE
    ensures d == PolicyBytes(p)
       <==> && ReadU16(d, 0) == p.minimumStartSamples && d[2] == p.armMask && d[3] == 0
            && ReadU32(d, 4) == p.minimumLeadMs && ReadU32(d, 8) == p.horizonEndTick
            && ReadU32(d, 12) == p.maximumLeadMs && ReadU32(d, 16) == p.commandTimeoutMs
            && ReadU32(d, 20) == p.maximumApplyLatenessMs
            && ReadVec(d, 24) == p.trackingErrorLimit && ReadVec(d, 72) == p.maximumStep
  {
    hide WriteU32, ReadU32, WriteJoints, ReadVec;
    WordsDetermine16(d, 0);
    WordSpelled(d, 4, p.minimumLeadMs);
    WordSpelled(d, 8, p.horizonEndTick);
    WordSpelled(d, 12, p.maximumLeadMs);
    WordSpelled(d, 16, p.commandTimeoutMs);
    WordSpelled(d, 20, p.maximumApplyLatenessMs);
    VecSpelled(d, 24, p.trackingErrorLimit);
    VecSpelled(d, 72, p.maximumStep);
    assert d == d[0..2] + [d[2],
        d[3]] + d[4..8] + d[8..12] + d[12..16] + d[16..20] + d[20..24] + d[24..72] + d[72..120];
    if d == PolicyBytes(p) {
      PolicySlices(p);
      ReadU16At(d, 0, WriteU16(p.minimumStartSamples));
    }
  }

  lemma PolicySlices(p: Policy)
    ensures var d := PolicyBytes(p);
            && d[0..2] == WriteU16(p.minimumStartSamples) && d[2] == p.armMask && d[3] == 0
            && d[4..8] == WriteU32(p.minimumLeadMs) && d[8..12] == WriteU32(p.horizonEndTick)
            && d[12..16] == WriteU32(p.maximumLeadMs) && d[16..20] == WriteU32(p.commandTimeoutMs)
            && d[20..24] == WriteU32(p.maximumApplyLatenessMs)
            && d[24..72] == WriteJoints(p.trackingErrorLimit, JOINT_COUNT)
            && d[72..120] == WriteJoints(p.maximumStep, JOINT_COUNT)
  {
    hide WriteU32, WriteU16, WriteJoints;
  }

  /** The same for the open request: the host's bytes are exactly those the
      firmware decodes as the policy. */
  lemma OpenWire(p: Policy, payload: seq<u8>)
    ensures EncodeOpen(AsHostPolicy(p)) == Some(payload) <==> DecodePolicy(payload) == Ok(p)
  {
    hide PolicyBytes, ReadVec, ReadU32, ReadU16;
    assert ToVec(p.trackingErrorLimit) == p.trackingErrorLimit && ToVec(p.maximumStep) == p.maximumStep;
    if |payload| == STREAM_OPEN_WIRE_SIZE {
      PolicySpelled(p, payload);
    }
  }

  // ---- The host's policy validator ----

  predicate HostLimitsOk(requested: seq<int>, hard: Vec) {
    && FitsVec(requested)
    && forall j :: 0 <= j < JOINT_COUNT ==> 0 < requested[j] && 0 < hard[j] && requested[j] <= hard[j]
  }

  /** Every check of the host's validator passes. */
  predicate HostPolicyOk(p: HostPolicy, caps: HardCaps, now: u32) {
    && 0 < p.armMask <= ARM_MASK_BOTH
    && 1 <= p.minimumStartSamples <= QUEUE_CAPACITY
    && caps.minimumLeadMs <= p.minimumLeadMs && p.maximumLeadMs <= caps.maximumLeadMs
    && p.minimumLeadMs <= p.maximumLeadMs
    && 1 <= p.commandTimeoutMs <= caps.maximumCommandTimeoutMs
    && !(p.horizonEndTick == 0 && p.commandTimeoutMs > caps.maximumOpenCommandTimeoutMs)
    && p.maximumApplyLatenessMs <= caps.maximumApplyLatenessMs
    && (p.horizonEndTick != 0 ==> 0 < (p.horizonEndTick - now) % TWO_32 < TWO_31)
    && HostLimitsOk(p.trackingErrorLimit, caps.trackingErrorLimit)
    && HostLimitsOk(p.maximumStep, caps.maximumStep)
  }

  /** The two policy validators, written apart and checking in different
      orders, accept exactly the same policies. */
  lemma PolicyValidatorsAgree(p: Policy, caps: HardCaps, now: u32)
    ensures HostPolicyOk(AsHostPolicy(p), caps, now) <==> ValidatePolicy(p, caps, now) == ContractOk
  {
    hide JointPolicyVerdict, TickAfter;
    TickOrdersAgree(p.horizonEndTick, now);
    if HostPolicyOk(AsHostPolicy(p), caps, now) {
      forall j | 0 <= j < JOINT_COUNT
        ensures JointPolicyOk(p, caps, j)
      {
        assert AsHostPolicy(p).maximumStep[j] == p.maximumStep[j];
        assert AsHostPolicy(p).trackingErrorLimit[j] == p.trackingErrorLimit[j];
      }
    }
    if ValidatePolicy(p, caps, now) == ContractOk {
      forall j | 0 <= j < JOINT_COUNT
        ensures 0 < p.trackingErrorLimit[j] <= caps.trackingErrorLimit[j] && 0 < p.maximumStep[j] <= caps.maximumStep[j]
      {
        assert JointPolicyOk(p, caps, j);
      }
    }
  }
}
