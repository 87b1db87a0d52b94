/** Whole runs of the buffered executor: what every event keeps, which exits a
    step can take, and the accounting of samples and lateness. */
module BufferedRuns {
  import opened Words
  import opened Interpolation
  import opened SetpointQueue
  import opened BufferedExecutor

  datatype Event =
    | AdmitEvent(samples: seq<Sample>, lead: Lead)
    | CompleteEvent
    | StartEvent(tick: u32, pos: Pose)
    | StepEvent(now: u32)
    | InterruptEvent(what: Interruption, now: u32)

  function Handle(e: Exec, limits: JointLimits, event: Event): (Exec, Result) {
    match event
    case AdmitEvent(samples, lead) => AdmitBatch(e, samples, lead, limits)
    case CompleteEvent => MarkInputComplete(e)
    case StartEvent(tick, pos) => Start(e, tick, pos, limits)
    case StepEvent(now) => (Step(e, now).0, Step(e, now).1)
    case InterruptEvent(what, now) => Interrupt(e, what, now)
  }

  /** The invariant of every run. */
  ghost predicate Good(e: Exec, limits: JointLimits) {
    && |e.queue| <= RING_SIZE && Increasing(e.queue) && AllWithin(e.queue, limits)
    && e.diag.queued == |e.queue| <= e.diag.peak <= RING_SIZE
    && (e.diag.state == Running ==>
          && e.anchorValid && e.queue != []
          && TickAfter(e.queue[0].tick, e.anchor.tick) && PoseOk(e.anchor.pos, limits))
    && (!Accepting(e.diag.state) ==> e.queue == [])
    && (e.diag.safeStopRequired <==>
          !Accepting(e.diag.state) && e.diag.state != Succeeded && e.diag.reason != PlannedHold)
    && (e.diag.reason == NoReason <==> Accepting(e.diag.state) || e.diag.state == Succeeded)
    && (e.diag.reason == PlannedHold ==> e.diag.state == Hold)
  }

  // ---- One step ----

  /** What a step may put out: a point between the anchor and the next sample,
      inside the limits. */
  ghost predicate OutputOk(e: Exec, limits: JointLimits, out: Pose) {
    && e.queue != [] && PoseOk(out, limits)
    && forall j :: 0 <= j < LEFT_JOINTS ==>
         Inside(e.anchor.pos[j], e.queue[0].pos[j], out[j])
  }

  predicate Inside(a: int, b: int, x: int) {
    (a <= x <= b) || (b <= x <= a)
  }

  lemma BetweenInside(a: Pose, b: Pose, elapsed: u32, span: u32, limits: JointLimits)
    requires 0 < span && elapsed <= span && PoseOk(a, limits) && PoseOk(b, limits)
    ensures var out := Between(a, b, elapsed, span);
            PoseOk(out, limits) && forall j :: 0 <= j < LEFT_JOINTS ==>
              Inside(a[j], b[j], out[j]) && out[j] == IdealLerp(a[j], b[j], elapsed, span)
  {
    hide IdealLerp;
    forall j | 0 <= j < LEFT_JOINTS
      ensures Inside(a[j], b[j], Between(a, b, elapsed, span)[j])
      ensures Between(a, b, elapsed, span)[j] == IdealLerp(a[j], b[j], elapsed, span)
    {
      IdealLerpBetween(a[j], b[j], elapsed, span);
      WrapKeeps(IdealLerp(a[j], b[j], elapsed, span));
    }
  }

  lemma WrapKeeps(x: int)
    requires -TWO_31 <= x < TWO_31
    ensures WrapI32(x) == x
  {
  }

  lemma ProductBound(d: int, e: nat)
    requires -TWO_32 < d < TWO_32 && e < TWO_31
    ensures -(TWO_32 * TWO_31) < d * e < TWO_32 * TWO_31
  {
    if 0 <= d {
      MulMono(d, e, TWO_31);
      MulMono(d, 0, e);
    } else {
      MulMono(-d, e, TWO_31);
      MulMono(-d, 0, e);
      NegMul(d, e);
    }
  }

  /** The segment product fits the 64 bits it is computed in. */
  lemma SegmentFits(a: i32, b: i32, elapsed: u32, span: u32)
    requires elapsed <= span < TWO_31
    ensures -0x8000_0000_0000_0000 <= (b - a) as int * elapsed < 0x8000_0000_0000_0000
  {
    ProductBound(b - a, elapsed);
  }

  /** Where `now` is not yet at the next sample and not before the anchor, it is
      inside the segment, whatever the clock's absolute value. */
  lemma InsideSegment(anchor: u32, next: u32, now: u32)
    requires TickAfter(next, anchor)
    requires now != next && !TickAfter(now, next)
    requires now == anchor || TickAfter(now, anchor)
    ensures Sub32(now, anchor) <= Sub32(next, anchor) && 0 < Sub32(next, anchor) < TWO_31
  {
  }

  /** The point, truncated toward zero, that the straight line from `from` to
      `to` has reached at `now`. */
  ghost predicate OnTheLine(from: Sample, to: Sample, now: u32, point: Pose) {
    var elapsed, span := Sub32(now, from.tick), Sub32(to.tick, from.tick);
    && 0 < span
    && forall j :: 0 <= j < LEFT_JOINTS ==>
         point[j] == from.pos[j] + TruncDiv((to.pos[j] as int - from.pos[j]) * elapsed, span)
  }

  /** The exits of a step in a running executor, exactly. The queue is never
      found empty, the take is never refused, and the elapsed time never runs
      past the segment: the result is an output, a missed tick, or a refusal
      because the clock went back before the anchor. An output is the sample
      that is due, or the point the line from the anchor has reached. */
  lemma StepExits(e: Exec, limits: JointLimits, now: u32)
    requires Good(e, limits) && e.diag.state == Running
    ensures var (after, result, out) := Step(e, now);
            var next := e.queue[0];
            var due := now == next.tick || TickAfter(now, next.tick);
            && result in {Output, Terminal, InvalidAnchor}
            && (result == Terminal <==> due && Sub32(now, next.tick) > e.allowedLateness)
            && (result == InvalidAnchor <==> !due && now != e.anchor.tick && !TickAfter(now, e.anchor.tick))
            && (result == Output <==> out.Some?)
            && (out.Some? ==> OutputOk(e, limits, out.value))
            && (out.Some? && due ==> out.value == next.pos && after.anchor == next && after.queue == e.queue[1..])
            && (out.Some? && !due ==> after == e && OnTheLine(e.anchor, next, now, out.value))
            && (result == Terminal ==> after.diag.state == Hold && after.diag.reason == MissedApplyTick)
  {
    hide IdealLerp, WrapI32, NoteApplied, Increasing, PoseOk, OnTheLine;
    var next := e.queue[0];
    assert PoseOk(next.pos, limits);
    if !(now == next.tick || TickAfter(now, next.tick)) && (now == e.anchor.tick || TickAfter(now, e.anchor.tick)) {
      InsideSegment(e.anchor.tick, next.tick, now);
      BetweenInside(e.anchor.pos, next.pos, Sub32(now, e.anchor.tick), Sub32(next.tick, e.anchor.tick), limits);
      BetweenIsLine(e.anchor, next, now, Between(e.anchor.pos, next.pos, Sub32(now, e.anchor.tick),
          Sub32(next.tick, e.anchor.tick)));
    }
  }

  lemma BetweenIsLine(from: Sample, to: Sample, now: u32, point: Pose)
    requires 0 < Sub32(to.tick, from.tick)
    requires forall j :: 0 <= j < LEFT_JOINTS ==>
               point[j] == IdealLerp(from.pos[j], to.pos[j], Sub32(now, from.tick), Sub32(to.tick, from.tick))
    ensures OnTheLine(from, to, now, point)
  {
  }

  lemma TailKeeps(queue: seq<Sample>, limits: JointLimits)
    requires queue != [] && Increasing(queue) && AllWithin(queue, limits)
    ensures Increasing(queue[1..]) && AllWithin(queue[1..], limits)
    ensures |queue| > 1 ==> TickAfter(queue[1..][0].tick, queue[0].tick)
    ensures PoseOk(queue[0].pos, limits)
  {
    hide PoseOk, TickAfter;
    var rest := queue[1..];
    forall i | 0 < i < |rest|
      ensures TickAfter(rest[i].tick, rest[i - 1].tick)
    {
      assert rest[i] == queue[i + 1] && rest[i - 1] == queue[i];
    }
  }

  lemma StepKeeps(e: Exec, limits: JointLimits, now: u32)
    requires Good(e, limits)
    ensures Good(Step(e, now).0, limits)
  {
    hide NoteApplied, Increasing, PoseOk, TickAfter, Sub32, Between, AllWithin;
    if e.diag.state == Running {
      TailKeeps(e.queue, limits);
      NotedKeeps(e.diag.(lastQueueResult := QueueOk), now, Sub32(now, e.queue[0].tick));
      EmptyKeeps(limits);
    }
  }

  lemma EmptyKeeps(limits: JointLimits)
    ensures Increasing([]) && AllWithin([], limits)
  {
  }

  lemma NotedKeeps(d: Diag, now: u32, lateness: u32)
    ensures var n := NoteApplied(d, now, lateness);
            && n.state == d.state && n.reason == d.reason && n.queued == d.queued && n.peak == d.peak
            && n.inputComplete == d.inputComplete && n.safeStopRequired == d.safeStopRequired
            && n.accepted == d.accepted
  {
  }

  lemma AdmitKeeps(e: Exec, limits: JointLimits, samples: seq<Sample>, lead: Lead)
    requires Good(e, limits)
    ensures Good(AdmitBatch(e, samples, lead, limits).0, limits)
  {
    hide Increasing, PoseOk, TickAfter, AllWithin, PushVerdict;
    PushIsExact(e.queue, samples, lead, limits);
  }

  lemma HandleKeeps(e: Exec, limits: JointLimits, event: Event)
    requires Good(e, limits)
    ensures Good(Handle(e, limits, event).0, limits)
  {
    hide Increasing, PoseOk, TickAfter, AllWithin, Step, AdmitBatch;
    EmptyKeeps(limits);
    match event
    case AdmitEvent(samples, lead) => AdmitKeeps(e, limits, samples, lead);
    case CompleteEvent =>
    case StartEvent(tick, pos) =>
    case StepEvent(now) => StepKeeps(e, limits, now);
    case InterruptEvent(what, now) =>
  }

  function Run(e: Exec, limits: JointLimits, events: seq<Event>): Exec
    decreases |events|
  {
    if events == [] then e else Run(Handle(e, limits, events[0]).0, limits, events[1..])
  }

  /** Every run, with whatever ticks and leads, keeps the invariant: the queue
      increases, its depth is reported, a terminal state has emptied it and asks
      for a safe stop unless it is success or the planned hold. */
  lemma {:induction false} RunsAreGood(e: Exec, limits: JointLimits, events: seq<Event>)
    requires Good(e, limits)
    ensures Good(Run(e, limits, events), limits)
    decreases |events|
  {
    hide Good, Handle;
    if events != [] {
      HandleKeeps(e, limits, events[0]);
      RunsAreGood(Handle(e, limits, events[0]).0, limits, events[1..]);
    }
  }

  lemma InitIsGood(minimumStart: nat, allowedLateness: u32, limits: JointLimits)
    requires Init(minimumStart, allowedLateness).Some?
    ensures Good(Init(minimumStart, allowedLateness).value, limits)
  {
  }

  /** The same from initialisation. */
  lemma RunsFromInitAreGood(minimumStart: nat, allowedLateness: u32, limits: JointLimits, events: seq<Event>)
    requires Init(minimumStart, allowedLateness).Some?
    ensures Good(Run(Init(minimumStart, allowedLateness).value, limits, events), limits)
  {
    hide Good, Handle, Init;
    InitIsGood(minimumStart, allowedLateness, limits);
    RunsAreGood(Init(minimumStart, allowedLateness).value, limits, events);
  }

  /** An end is an end: whatever comes after it, a terminal executor stays as it
      is. */
  lemma {:induction false} TerminalStays(e: Exec, limits: JointLimits, events: seq<Event>)
    requires !Accepting(e.diag.state)
    ensures Run(e, limits, events) == e
    decreases |events|
  {
    if events != [] {
      assert Handle(e, limits, events[0]) == (e, BadState);
      TerminalStays(e, limits, events[1..]);
    }
  }

  /** Inside any half-window the queue's ticks increase strictly, first to last,
      across the wrap of the clock. */
  lemma {:induction false} IncreasingIsOrdered(base: u32, queue: seq<Sample>, i: nat, j: nat)
    requires Increasing(queue) && i < j < |queue|
    requires forall k :: 0 <= k < |queue| ==> Since(base, queue[k].tick) < TWO_31
    ensures Since(base, queue[i].tick) < Since(base, queue[j].tick)
    decreases j - i
  {
    HalfWindow(base, queue[j].tick, queue[j - 1].tick);
    if i < j - 1 {
      IncreasingIsOrdered(base, queue, i, j - 1);
    }
  }
}
