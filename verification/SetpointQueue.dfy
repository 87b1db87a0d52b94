/** The older executor's queue: sixteen setpoints of six joints in a ring.
    Functions on the queue's contents first, then the ring that refines them. */
module SetpointQueue {
  import opened Words
  import opened StreamSession

  const LEFT_JOINTS := 6
  const RING_SIZE := 16

  type Pose = v: seq<i32> | |v| == LEFT_JOINTS witness [0, 0, 0, 0, 0, 0]

  datatype Sample = Sample(tick: u32, pos: Pose)

  datatype JointLimit = JointLimit(minimum: i32, maximum: i32)
  type JointLimits = l: seq<JointLimit> | |l| == LEFT_JOINTS witness seq(LEFT_JOINTS, _ => JointLimit(0, 0))

  const ZERO_SAMPLE := Sample(0, [0, 0, 0, 0, 0, 0])

  datatype QueueResult =
    | QueueOk | QueueEmpty | NotDue | NoSamples | CapacityExceeded | StaleTick | TickTooFar
    | NonMonotonic | LimitViolation

  // ---- The queue as a sequence ----

  /** Inside the limits, which must themselves be in order. */
  predicate PoseOk(pos: Pose, limits: JointLimits) {
    forall j :: 0 <= j < LEFT_JOINTS ==> limits[j].minimum <= pos[j] <= limits[j].maximum
  }

  datatype Lead = Lead(now: u32, minimum: u32, maximum: u32)

  function SampleVerdict(s: Sample, previousTick: u32, lead: Lead, limits: JointLimits): QueueResult {
    if !TickAfter(s.tick, lead.now) || Sub32(s.tick, lead.now) < lead.minimum then StaleTick
    else if Sub32(s.tick, lead.now) > lead.maximum then TickTooFar
    else if !TickAfter(s.tick, previousTick) then NonMonotonic
    else if !PoseOk(s.pos, limits) then LimitViolation
    else QueueOk
  }

  /** The verdict of the first sample, from i on, that fails. */
  function SampleVerdicts(samples: seq<Sample>, i: nat, previousTick: u32, lead: Lead, limits: JointLimits): QueueResult
    requires i <= |samples|
    decreases |samples| - i
  {
    if i == |samples| then QueueOk
    else if SampleVerdict(samples[i], previousTick, lead, limits) != QueueOk then
      SampleVerdict(samples[i], previousTick, lead, limits)
    else SampleVerdicts(samples, i + 1, samples[i].tick, lead, limits)
  }

  function PreviousTick(queue: seq<Sample>, now: u32): u32 {
    if queue != [] then queue[|queue| - 1].tick else now
  }

  function PushVerdict(queue: seq<Sample>, samples: seq<Sample>, lead: Lead, limits: JointLimits): QueueResult {
    if samples == [] then NoSamples
    else if |samples| + |queue| > RING_SIZE then CapacityExceeded
    else if lead.minimum > lead.maximum then TickTooFar
    else SampleVerdicts(samples, 0, PreviousTick(queue, lead.now), lead, limits)
  }

  /** All or nothing. */
  function Pushed(queue: seq<Sample>, samples: seq<Sample>, lead: Lead, limits: JointLimits): seq<Sample> {
    if PushVerdict(queue, samples, lead, limits) == QueueOk then queue + samples else queue
  }

  function DueResult(queue: seq<Sample>, tick: u32): QueueResult {
    if queue == [] then QueueEmpty
    else if queue[0].tick == tick then QueueOk
    else if TickAfter(queue[0].tick, tick) then NotDue
    else StaleTick
  }

  // ---- What every push keeps ----

  /** Each tick comes after the one before it. */
  ghost predicate Increasing(queue: seq<Sample>) {
    forall i :: 0 < i < |queue| ==> TickAfter(queue[i].tick, queue[i - 1].tick)
  }

  ghost predicate AllWithin(queue: seq<Sample>, limits: JointLimits) {
    forall i :: 0 <= i < |queue| ==> PoseOk(queue[i].pos, limits)
  }

  /** On time, after `previous` and inside the limits. */
  predicate Fits(s: Sample, previous: u32, lead: Lead, limits: JointLimits) {
    && TickAfter(s.tick, lead.now)
    && lead.minimum <= Sub32(s.tick, lead.now) <= lead.maximum
    && TickAfter(s.tick, previous)
    && PoseOk(s.pos, limits)
  }

  function TickBefore(samples: seq<Sample>, i: nat, previousTick: u32, k: nat): u32
    requires i <= k < |samples|
  {
    if k == i then previousTick else samples[k - 1].tick
  }

  /** Every sample from i on fits, after the one before it. */
  ghost predicate Acceptable(samples: seq<Sample>, i: nat, previousTick: u32, lead: Lead, limits: JointLimits) {
    forall k :: i <= k < |samples| ==> Fits(samples[k], TickBefore(samples, i, previousTick, k), lead, limits)
  }

  lemma {:induction false} VerdictsExact(samples: seq<Sample>, i: nat, previousTick: u32, lead: Lead,
                                         limits: JointLimits)
    requires i <= |samples|
    ensures SampleVerdicts(samples, i, previousTick, lead, limits) == QueueOk
       <==> Acceptable(samples, i, previousTick, lead, limits)
    decreases |samples| - i
  {
    hide PoseOk, TickAfter, Sub32;
    if i < |samples| {
      VerdictsExact(samples, i + 1, samples[i].tick, lead, limits);
      AcceptableSplits(samples, i, previousTick, lead, limits);
    }
  }

  lemma AcceptableSplits(samples: seq<Sample>, i: nat, previousTick: u32, lead: Lead, limits: JointLimits)
    requires i < |samples|
    ensures Acceptable(samples, i, previousTick, lead, limits)
       <==> Fits(samples[i], previousTick, lead, limits) && Acceptable(samples, i + 1, samples[i].tick, lead, limits)
  {
    hide Fits;
    if Acceptable(samples, i, previousTick, lead, limits) {
      assert Fits(samples[i], TickBefore(samples, i, previousTick, i), lead, limits);
      forall k | i + 1 <= k < |samples|
        ensures Fits(samples[k], TickBefore(samples, i + 1, samples[i].tick, k), lead, limits)
      {
        assert TickBefore(samples, i + 1, samples[i].tick, k) == TickBefore(samples, i, previousTick, k);
      }
    }
    if Fits(samples[i], previousTick, lead, limits) && Acceptable(samples, i + 1, samples[i].tick, lead, limits) {
      forall k | i <= k < |samples|
        ensures Fits(samples[k], TickBefore(samples, i, previousTick, k), lead, limits)
      {
        if i < k {
          assert TickBefore(samples, i + 1, samples[i].tick, k) == TickBefore(samples, i, previousTick, k);
        }
      }
    }
  }

  /** A push is accepted exactly when there is room and every sample is on time,
      after the one before it and inside the limits; then the queue keeps its
      order and its limits, and otherwise nothing changes. */
  lemma PushIsExact(queue: seq<Sample>, samples: seq<Sample>, lead: Lead, limits: JointLimits)
    requires Increasing(queue) && AllWithin(queue, limits) && |queue| <= RING_SIZE
    ensures PushVerdict(queue, samples, lead, limits) == QueueOk
       <==> && samples != [] && |queue| + |samples| <= RING_SIZE
            && Acceptable(samples, 0, PreviousTick(queue, lead.now), lead, limits)
    ensures var after := Pushed(queue, samples, lead, limits);
            && Increasing(after) && AllWithin(after, limits) && |after| <= RING_SIZE
            && (after == queue || after == queue + samples)
  {
    hide PoseOk, TickAfter, Sub32;
    VerdictsExact(samples, 0, PreviousTick(queue, lead.now), lead, limits);
    var after := Pushed(queue, samples, lead, limits);
    if samples != [] && Acceptable(samples, 0, PreviousTick(queue, lead.now), lead, limits) {
      assert Fits(samples[0], TickBefore(samples, 0, PreviousTick(queue, lead.now), 0), lead, limits);
    }
    if PushVerdict(queue, samples, lead, limits) == QueueOk {
      forall i | 0 <= i < |samples|
        ensures Fits(samples[i], TickBefore(samples, 0, PreviousTick(queue, lead.now), i), lead, limits)
        ensures after[|queue| + i] == samples[i]
      {
      }
      forall i | 0 < i < |after|
        ensures TickAfter(after[i].tick, after[i - 1].tick)
      {
        if |queue| <= i {
          assert Fits(samples[i - |queue|], TickBefore(samples, 0, PreviousTick(queue, lead.now), i - |queue|), lead,
              limits);
        }
      }
    }
  }

  /** Something is wrong with the k-th sample. */
  ghost predicate Late(s: Sample, lead: Lead) {
    !TickAfter(s.tick, lead.now) || Sub32(s.tick, lead.now) < lead.minimum
  }

  ghost predicate OutOfOrder(samples: seq<Sample>, i: nat, previousTick: u32, k: nat)
    requires i <= k < |samples|
  {
    !TickAfter(samples[k].tick, TickBefore(samples, i, previousTick, k))
  }

  /** What each reason to refuse a push says about the samples. */
  ghost predicate TrueReason(samples: seq<Sample>, i: nat, previousTick: u32, lead: Lead, limits: JointLimits,
                             why: QueueResult)
  {
    match why
    case QueueOk => true
    case StaleTick => exists k :: i <= k < |samples| && Late(samples[k], lead)
    case TickTooFar => exists k :: i <= k < |samples| && Sub32(samples[k].tick, lead.now) > lead.maximum
    case NonMonotonic => exists k :: i <= k < |samples| && OutOfOrder(samples, i, previousTick, k)
    case LimitViolation => exists k :: i <= k < |samples| && !PoseOk(samples[k].pos, limits)
    case _ => false
  }

  lemma {:induction false} VerdictsAreTrue(samples: seq<Sample>, i: nat, previousTick: u32, lead: Lead,
                                           limits: JointLimits)
    requires i <= |samples|
    ensures TrueReason(samples, i, previousTick, lead, limits, SampleVerdicts(samples, i, previousTick, lead, limits))
    decreases |samples| - i
  {
    hide PoseOk, TickAfter, Sub32;
    if i < |samples| {
      if SampleVerdict(samples[i], previousTick, lead, limits) == QueueOk {
        VerdictsAreTrue(samples, i + 1, samples[i].tick, lead, limits);
        var why := SampleVerdicts(samples, i + 1, samples[i].tick, lead, limits);
        if why == NonMonotonic {
          var k :| i + 1 <= k < |samples| && OutOfOrder(samples, i + 1, samples[i].tick, k);
          assert OutOfOrder(samples, i, previousTick, k);
        }
      } else {
        assert TickBefore(samples, i, previousTick, i) == previousTick;
        assert SampleVerdict(samples[i], previousTick, lead, limits) == NonMonotonic ==>
            OutOfOrder(samples, i, previousTick, i);
      }
    }
  }

  /** Why a push is refused: nothing to push, no room for all of it, a lead window
      that is none, or a sample that is late, too far ahead, not after the one
      before it, or outside the limits, as the reason says. */
  lemma PushReasons(queue: seq<Sample>, samples: seq<Sample>, lead: Lead, limits: JointLimits)
    ensures var why := PushVerdict(queue, samples, lead, limits);
            && (why == NoSamples <==> samples == [])
            && (why == CapacityExceeded <==> samples != [] && |queue| + |samples| > 16)
            && (why !in {NoSamples, CapacityExceeded} ==>
                  || (why == TickTooFar && lead.minimum > lead.maximum)
                  || TrueReason(samples, 0, if queue != [] then queue[|queue| - 1].tick else lead.now, lead, limits,
                       why))
  {
    hide TrueReason, SampleVerdicts;
    VerdictsAreTrue(samples, 0, PreviousTick(queue, lead.now), lead, limits);
    NeverThese(samples, 0, PreviousTick(queue, lead.now), lead, limits);
  }

  lemma {:induction false} NeverThese(samples: seq<Sample>, i: nat, previousTick: u32, lead: Lead, limits: JointLimits)
    requires i <= |samples|
    ensures SampleVerdicts(samples, i, previousTick, lead, limits) !in {NoSamples, CapacityExceeded}
    decreases |samples| - i
  {
    hide PoseOk, TickAfter, Sub32;
    if i < |samples| {
      NeverThese(samples, i + 1, samples[i].tick, lead, limits);
    }
  }

  /** What asking for a tick finds: nothing queued, the front with that tick, or
      a front still to come or gone by. */
  lemma DueIsExact(queue: seq<Sample>, tick: u32)
    ensures var r := DueResult(queue, tick);
            && (r == QueueEmpty <==> |queue| == 0)
            && (r == QueueOk <==> |queue| > 0 && queue[0].tick == tick)
            && (r == NotDue <==> |queue| > 0 && HostTickAfter(queue[0].tick, tick))
            && r in {QueueEmpty, QueueOk, NotDue, StaleTick}
  {
    if queue != [] {
      TickOrdersAgree(queue[0].tick, tick);
    }
  }

  // ---- The ring ----

  /** The slot `offset` places after `head`. */
  function Slot(head: nat, offset: nat): nat {
    (head + offset) % RING_SIZE
  }

  lemma SlotsDiffer(head: nat, i: nat, j: nat)
    requires head < RING_SIZE && i < j < RING_SIZE
    ensures Slot(head, i) != Slot(head, j)
  {
  }

  lemma SlotAfterTake(head: nat, i: nat)
    requires head < RING_SIZE && i < RING_SIZE
    ensures Slot(Slot(head, 1), i) == Slot(head, i + 1)
  {
  }

  class SetpointRing {
    const samples: array<Sample>
    var head: nat
    var count: nat

    ghost predicate Valid()
      reads this
    {
      samples.Length == RING_SIZE && head < RING_SIZE && count <= RING_SIZE
    }

    /** First in, first out. */
    function Contents(): (c: seq<Sample>)
      requires Valid()
      reads this, samples
      ensures |c| == count
    {
      seq(count, i requires 0 <= i < count && samples.Length == RING_SIZE reads this, samples => samples[Slot(head, i)])
    }

    constructor ()
      ensures Valid() && fresh(samples) && Contents() == []
    {
      samples := new Sample[RING_SIZE](_ => ZERO_SAMPLE);
      head, count := 0, 0;
    }

    method Clear()
      requires Valid()
      modifies this
      ensures Valid() && Contents() == []
    {
      head, count := 0, 0;
    }

    /** One more sample at the back. */
    method Add(sample: Sample)
      requires Valid() && count < RING_SIZE
      modifies this`count, samples
      ensures Valid() && Contents() == old(Contents()) + [sample]
    {
      forall i: nat | i < count
        ensures Slot(head, i) != Slot(head, count)
      {
        SlotsDiffer(head, i, count);
      }
      samples[Slot(head, count)] := sample;
      count := count + 1;
      assert Contents()[..count - 1] == old(Contents());
    }

    /** The first loop of a push: every sample is looked at before any is stored. */
    method CheckSamples(more: seq<Sample>, previous: u32, lead: Lead, limits: JointLimits) returns (r: QueueResult)
      ensures r == SampleVerdicts(more, 0, previous, lead, limits)
    {
      hide SampleVerdict;
      var previousTick := previous;
      for i := 0 to |more|
        invariant SampleVerdicts(more, 0, previous, lead, limits) == SampleVerdicts(more, i, previousTick, lead, limits)
      {
        var verdict := SampleVerdict(more[i], previousTick, lead, limits);
        if verdict != QueueOk { return verdict; }
        previousTick := more[i].tick;
      }
      r := QueueOk;
    }

    /** The second loop of a push. */
    method Store(more: seq<Sample>)
      requires Valid() && count + |more| <= RING_SIZE
      modifies this`count, samples
      ensures Valid() && Contents() == old(Contents()) + more
    {
      ghost var was := Contents();
      for i := 0 to |more|
        invariant Valid() && count == |was| + i
        invariant Contents() == was + more[..i]
      {
        Add(more[i]);
        assert was + more[..i] + [more[i]] == was + more[..i + 1];
      }
      assert more[..|more|] == more;
    }

    method PushBatch(more: seq<Sample>, lead: Lead, limits: JointLimits) returns (r: QueueResult)
      requires Valid()
      modifies this`count, samples
      ensures Valid() && r == PushVerdict(old(Contents()), more, lead, limits)
      ensures Contents() == Pushed(old(Contents()), more, lead, limits)
    {
      hide SampleVerdict;
      if more == [] { return NoSamples; }
      if |more| > RING_SIZE - count { return CapacityExceeded; }
      if lead.minimum > lead.maximum { return TickTooFar; }
      var previousTick := lead.now;
      if count > 0 {
        previousTick := samples[Slot(head, count - 1)].tick;
      }
      r := CheckSamples(more, previousTick, lead, limits);
      if r != QueueOk { return; }
      Store(more);
    }

    method Peek() returns (r: Option<Sample>)
      requires Valid()
      ensures r == if Contents() == [] then None else Some(Contents()[0])
    {
      if count == 0 { return None; }
      r := Some(samples[head]);
    }

    method TakeDue(tick: u32) returns (r: QueueResult, sample: Option<Sample>)
      requires Valid()
      modifies this`head, this`count
      ensures Valid() && r == DueResult(old(Contents()), tick)
      ensures r == QueueOk ==> sample == Some(old(Contents())[0]) && Contents() == old(Contents())[1..]
      ensures r != QueueOk ==> sample == None && Contents() == old(Contents())
    {
      if count == 0 { return QueueEmpty, None; }
      var front := samples[head];
      if front.tick != tick {
        return if TickAfter(front.tick, tick) then NotDue else StaleTick, None;
      }
      forall i: nat | i < RING_SIZE
        ensures Slot(Slot(head, 1), i) == Slot(head, i + 1)
      {
        SlotAfterTake(head, i);
      }
      head, count := Slot(head, 1), count - 1;
      return QueueOk, Some(front);
    }
  }
}
