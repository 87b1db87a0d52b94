/** The buffered executor's books: every accepted sample is applied, queued or
    discarded, and the lateness statistics are those of the samples applied. */
module BufferedAccounting {
  import opened Words
  import opened SetpointQueue
  import opened BufferedExecutor
  import opened BufferedRuns

  /** An executor with true counts beside its 32-bit ones: samples accepted,
      samples discarded, and the lateness of every sample applied, in order. */
  datatype Book = Book(exec: Exec, accepted: nat, discarded: nat, lateness: seq<u32>)

  /** This step takes the first sample off the queue and puts it out. */
  predicate AppliesNow(e: Exec, now: u32) {
    && e.diag.state == Running && e.anchorValid && e.queue != []
    && (now == e.queue[0].tick || TickAfter(now, e.queue[0].tick))
    && Sub32(now, e.queue[0].tick) <= e.allowedLateness
  }

  function Enter(b: Book, limits: JointLimits, event: Event): Book {
    var (after, result) := Handle(b.exec, limits, event);
    match event
    case AdmitEvent(samples, _) => b.(exec := after, accepted := b.accepted + if result == Ok then |samples| else 0)
    case StepEvent(now) =>
      if AppliesNow(b.exec, now) then
        b.(exec := after, lateness := b.lateness + [Sub32(now, b.exec.queue[0].tick)])
      else b.(exec := after, discarded := b.discarded + Lost(b.exec, after))
    case _ => b.(exec := after, discarded := b.discarded + Lost(b.exec, after))
  }

  /** Samples gone from the queue without being applied. */
  function Lost(before: Exec, after: Exec): nat {
    if |after.queue| <= |before.queue| then |before.queue| - |after.queue| else 0
  }

  /** A true count as a saturating 32-bit counter shows it. */
  function Shown(n: nat): u32 {
    if n > U32_MAX then U32_MAX else n
  }

  lemma CappedShows(n: nat, more: nat)
    ensures Capped(Shown(n), more) == Shown(n + more)
  {
  }

  // ---- What the statistics mean ----

  /** Which latenesses a bucket is for: one each, and the last for all above. */
  predicate BelongsIn(late: u32, k: nat) {
    if k < 5 then late == k else k == 5 && late >= 5
  }

  lemma BucketIs(late: u32, k: nat)
    ensures BelongsIn(late, k) <==> Bucket(late) == k
  {
  }

  function InBucket(lateness: seq<u32>, k: nat): nat {
    if lateness == [] then 0
    else InBucket(lateness[..|lateness| - 1], k) + if BelongsIn(lateness[|lateness| - 1], k) then 1 else 0
  }

  /** Every applied sample is in exactly one bucket. */
  lemma {:induction false} BucketsPartition(lateness: seq<u32>)
    ensures InBucket(lateness, 0) + InBucket(lateness, 1) + InBucket(lateness, 2) + InBucket(lateness, 3)
            + InBucket(lateness, 4) + InBucket(lateness, 5) == |lateness|
  {
    if lateness != [] {
      BucketsPartition(lateness[..|lateness| - 1]);
    }
  }

  function Worst(lateness: seq<u32>): u32 {
    if lateness == [] then 0
    else
      var rest := Worst(lateness[..|lateness| - 1]);
      if lateness[|lateness| - 1] > rest then lateness[|lateness| - 1] else rest
  }

  /** The 1-based position at which the worst lateness was first reached. */
  function RaisedAt(lateness: seq<u32>): (n: nat)
    ensures n <= |lateness|
  {
    if lateness == [] then 0
    else
      var front := lateness[..|lateness| - 1];
      if lateness[|lateness| - 1] > Worst(front) then |lateness| else RaisedAt(front)
  }

  lemma {:induction false} WorstIsFirst(lateness: seq<u32>)
    ensures forall i :: 0 <= i < |lateness| ==> lateness[i] <= Worst(lateness)
    ensures RaisedAt(lateness) == 0 <==> Worst(lateness) == 0
    ensures RaisedAt(lateness) > 0 ==>
              var k := RaisedAt(lateness) - 1;
              lateness[k] == Worst(lateness) && forall i :: 0 <= i < k ==> lateness[i] < lateness[k]
  {
    if lateness != [] {
      var front := lateness[..|lateness| - 1];
      WorstIsFirst(front);
      forall i | 0 <= i < |lateness|
        ensures lateness[i] <= Worst(lateness)
      {
        if i < |front| {
          assert lateness[i] == front[i];
        }
      }
      if RaisedAt(lateness) > 0 {
        var k := RaisedAt(lateness) - 1;
        forall i | 0 <= i < k
          ensures lateness[i] < lateness[k]
        {
          assert lateness[i] == front[i];
          if k < |front| {
            assert lateness[k] == front[k];
          }
        }
      }
    }
  }

  lemma Snoc(lateness: seq<u32>, l: u32)
    ensures forall k: nat :: InBucket(lateness + [l], k) == InBucket(lateness, k) + if BelongsIn(l, k) then 1 else 0
    ensures Worst(lateness + [l]) == if l > Worst(lateness) then l else Worst(lateness)
    ensures RaisedAt(lateness + [l]) == if l > Worst(lateness) then |lateness| + 1 else RaisedAt(lateness)
  {
    assert (lateness + [l])[..|lateness|] == lateness;
  }

  // ---- The books balance ----

  ghost predicate HistogramShows(h: Histogram, lateness: seq<u32>) {
    forall k: nat :: k < BUCKETS ==> h[k] == Shown(InBucket(lateness, k))
  }

  ghost predicate Balanced(b: Book) {
    var d := b.exec.diag;
    && b.accepted == |b.lateness| + |b.exec.queue| + b.discarded
    && (Accepting(d.state) ==> b.discarded == 0)
    && d.accepted == Shown(b.accepted) && d.applied == Shown(|b.lateness|)
    && HistogramShows(d.histogram, b.lateness)
    && d.maximumLateness == Worst(b.lateness) <= b.exec.allowedLateness
    && (b.lateness != [] ==> d.lastLateness == b.lateness[|b.lateness| - 1])
    && d.maximumLatenessIndex == Shown(RaisedAt(b.lateness))
  }

  lemma NotedBalances(d: Diag, now: u32, l: u32, lateness: seq<u32>)
    requires d.applied == Shown(|lateness|) && HistogramShows(d.histogram, lateness)
    requires d.maximumLateness == Worst(lateness) && d.maximumLatenessIndex == Shown(RaisedAt(lateness))
    ensures var n := NoteApplied(d, now, l);
            && n.applied == Shown(|lateness| + 1) && n.lastLateness == l && HistogramShows(n.histogram, lateness + [l])
            && n.maximumLateness == Worst(lateness + [l]) && n.maximumLatenessIndex == Shown(RaisedAt(lateness + [l]))
  {
    hide Worst, RaisedAt, InBucket, Bucket, BelongsIn;
    Snoc(lateness, l);
    CappedShows(|lateness|, 1);
    forall k: nat | k < BUCKETS
      ensures NoteApplied(d, now, l).histogram[k] == Shown(InBucket(lateness + [l], k))
    {
      BucketIs(l, k);
      CappedShows(InBucket(lateness, k), 1);
    }
  }

  lemma ApplyBalances(b: Book, limits: JointLimits, now: u32)
    requires Good(b.exec, limits) && Balanced(b) && AppliesNow(b.exec, now)
    ensures Balanced(Enter(b, limits, StepEvent(now)))
  {
    hide NoteApplied, Increasing, PoseOk, AllWithin, Worst, RaisedAt, HistogramShows, Shown;
    var e := b.exec;
    var l := Sub32(now, e.queue[0].tick);
    var d := e.diag.(lastQueueResult := QueueOk);
    NotedKeeps(d, now, l);
    NotedBalances(d, now, l, b.lateness);
    WorstStays(b.lateness, l, e.allowedLateness);
  }

  lemma WorstStays(lateness: seq<u32>, l: u32, allowed: u32)
    requires Worst(lateness) <= allowed && l <= allowed
    ensures Worst(lateness + [l]) <= allowed
  {
    Snoc(lateness, l);
  }

  /** Any other step leaves the statistics, and loses samples only by ending. */
  lemma OtherStepBalances(b: Book, limits: JointLimits, now: u32)
    requires Good(b.exec, limits) && Balanced(b) && !AppliesNow(b.exec, now)
    ensures Balanced(Enter(b, limits, StepEvent(now)))
  {
    hide NoteApplied, Increasing, PoseOk, AllWithin, Worst, RaisedAt, HistogramShows, Shown, Between;
  }

  lemma AdmitBalances(b: Book, limits: JointLimits, samples: seq<Sample>, lead: Lead)
    requires Good(b.exec, limits) && Balanced(b)
    ensures Balanced(Enter(b, limits, AdmitEvent(samples, lead)))
  {
    hide NoteApplied, Increasing, PoseOk, AllWithin, Worst, RaisedAt, HistogramShows, Shown, Capped, PushVerdict;
    CappedShows(b.accepted, |samples|);
  }

  lemma EnterBalances(b: Book, limits: JointLimits, event: Event)
    requires Good(b.exec, limits) && Balanced(b)
    ensures Balanced(Enter(b, limits, event)) && Enter(b, limits, event).exec == Handle(b.exec, limits, event).0
  {
    hide NoteApplied, Increasing, PoseOk, AllWithin, Worst, RaisedAt, HistogramShows, Shown, Between, Step, AdmitBatch;
    match event
    case AdmitEvent(samples, lead) => AdmitBalances(b, limits, samples, lead);
    case StepEvent(now) =>
      if AppliesNow(b.exec, now) {
        ApplyBalances(b, limits, now);
      } else {
        OtherStepBalances(b, limits, now);
      }
    case CompleteEvent =>
    case StartEvent(tick, pos) =>
    case InterruptEvent(what, now) =>
  }

  function EnterAll(b: Book, limits: JointLimits, events: seq<Event>): Book
    decreases |events|
  {
    if events == [] then b else EnterAll(Enter(b, limits, events[0]), limits, events[1..])
  }

  /** Accounting over every run. */
  lemma {:induction false} RunsBalance(b: Book, limits: JointLimits, events: seq<Event>)
    requires Good(b.exec, limits) && Balanced(b)
    ensures Good(EnterAll(b, limits, events).exec, limits) && Balanced(EnterAll(b, limits, events))
    ensures EnterAll(b, limits, events).exec == Run(b.exec, limits, events)
    decreases |events|
  {
    hide Good, Balanced, Handle, Enter;
    if events != [] {
      HandleKeeps(b.exec, limits, events[0]);
      EnterBalances(b, limits, events[0]);
      RunsBalance(Enter(b, limits, events[0]), limits, events[1..]);
    }
  }

  lemma InitBalances(minimumStart: nat, allowedLateness: u32)
    requires Init(minimumStart, allowedLateness).Some?
    ensures Balanced(NewBook(minimumStart, allowedLateness))
  {
  }

  /** The books of an executor just initialised. */
  function NewBook(minimumStart: nat, allowedLateness: u32): Book
    requires Init(minimumStart, allowedLateness).Some?
  {
    Book(Init(minimumStart, allowedLateness).value, 0, 0, [])
  }

  /** Below saturation the executor's own 32-bit fields tell the whole story:
      the buckets sum to the applied samples, accepted samples are applied,
      queued or discarded, and the recorded index is where the worst lateness
      was first seen. */
  lemma FieldsBalance(b: Book, limits: JointLimits)
    requires Good(b.exec, limits) && Balanced(b) && b.accepted <= U32_MAX
    ensures var d := b.exec.diag;
            && d.accepted == d.applied as int + d.queued + b.discarded
            && d.histogram[0] as int + d.histogram[1] + d.histogram[2] + d.histogram[3] + d.histogram[4]
              + d.histogram[5]
               == d.applied
            && d.applied as int == |b.lateness|
            && (d.maximumLatenessIndex > 0 ==> b.lateness[d.maximumLatenessIndex - 1] == d.maximumLateness)
  {
    hide Worst, RaisedAt, InBucket;
    BucketsPartition(b.lateness);
    WorstIsFirst(b.lateness);
    forall k: nat | k < BUCKETS
      ensures InBucket(b.lateness, k) <= |b.lateness|
    {
    }
  }

  /** Accounting over every run from initialisation: the counters show the true
      counts and, below saturation, balance among themselves. */
  lemma RunsFromInitBalance(minimumStart: nat, allowedLateness: u32, limits: JointLimits, events: seq<Event>)
    requires Init(minimumStart, allowedLateness).Some?
    ensures var b := EnterAll(NewBook(minimumStart, allowedLateness), limits, events);
            var d := b.exec.diag;
            && b.exec == Run(Init(minimumStart, allowedLateness).value, limits, events) && Balanced(b)
            && (b.accepted <= U32_MAX ==>
                  && d.accepted == d.applied as int + d.queued + b.discarded
                  && d.applied as int == |b.lateness|
                  && d.histogram[0] as int + d.histogram[1] + d.histogram[2] + d.histogram[3] + d.histogram[4]
                    + d.histogram[5]
                     == d.applied)
  {
    hide Good, Balanced, Init, EnterAll;
    InitIsGood(minimumStart, allowedLateness, limits);
    InitBalances(minimumStart, allowedLateness);
    RunsBalance(NewBook(minimumStart, allowedLateness), limits, events);
    var b := EnterAll(NewBook(minimumStart, allowedLateness), limits, events);
    if b.accepted <= U32_MAX {
      FieldsBalance(b, limits);
    }
  }
}
