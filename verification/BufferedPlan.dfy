/** The buffered executor refines a plan: every accepted batch extends it, and
    what is applied is always its beginning, in order and never early. */
module BufferedPlan {
  import opened Words
  import opened StreamSession
  import opened SetpointQueue
  import opened BufferedExecutor
  import opened BufferedRuns
  import opened BufferedAccounting

  /** An executor with everything it accepted and what it applied of it. */
  datatype Track = Track(exec: Exec, applied: seq<Sample>, plan: seq<Sample>)

  function Follow(t: Track, limits: JointLimits, event: Event): Track {
    var (after, result) := Handle(t.exec, limits, event);
    match event
    case AdmitEvent(samples, _) => Track(after, t.applied, if result == Ok then t.plan + samples else t.plan)
    case StepEvent(now) => Track(after, if AppliesNow(t.exec, now) then t.applied + [t.exec.queue[0]] else t.applied,
                                 t.plan)
    case _ => Track(after, t.applied, t.plan)
  }

  function FollowAll(t: Track, limits: JointLimits, events: seq<Event>): Track
    decreases |events|
  {
    if events == [] then t else FollowAll(Follow(t, limits, events[0]), limits, events[1..])
  }

  // ---- Time ----

  /** The clock does not go backwards, and no lead reaches past the half-window. */
  ghost predicate EventTimely(base: u32, clock: u32, event: Event) {
    match event
    case AdmitEvent(_, lead) =>
      Since(base, clock) <= Since(base, lead.now) && Since(base, lead.now) + lead.maximum < TWO_31
    case CompleteEvent => true
    case StartEvent(tick, _) => Since(base, clock) <= Since(base, tick) < TWO_31
    case StepEvent(now) => Since(base, clock) <= Since(base, now) < TWO_31
    case InterruptEvent(_, now) => Since(base, clock) <= Since(base, now) < TWO_31
  }

  function EventClock(clock: u32, event: Event): u32 {
    match event
    case AdmitEvent(_, lead) => lead.now
    case CompleteEvent => clock
    case StartEvent(tick, _) => tick
    case StepEvent(now) => now
    case InterruptEvent(_, now) => now
  }

  ghost predicate EventsTimely(base: u32, clock: u32, events: seq<Event>)
    decreases |events|
  {
    events == []
    || (EventTimely(base, clock, events[0]) && EventsTimely(base, EventClock(clock, events[0]), events[1..]))
  }

  function LastClock(clock: u32, events: seq<Event>): u32
    decreases |events|
  {
    if events == [] then clock else LastClock(EventClock(clock, events[0]), events[1..])
  }

  // ---- The invariant ----

  ghost predicate Windowed(base: u32, samples: seq<Sample>) {
    forall i :: 0 <= i < |samples| ==> Since(base, samples[i].tick) < TWO_31
  }

  ghost predicate Tracks(base: u32, clock: u32, t: Track, limits: JointLimits) {
    && Good(t.exec, limits) && Increasing(t.plan) && Windowed(base, t.plan)
    && t.applied <= t.plan
    && (Accepting(t.exec.diag.state) ==> t.plan == t.applied + t.exec.queue)
    && (t.exec.diag.state == Priming ==> t.applied == [])
    && (t.exec.diag.state == Succeeded ==> t.applied == t.plan)
    && forall i :: 0 <= i < |t.applied| ==> Since(base, t.applied[i].tick) <= Since(base, clock)
  }

  /** An accepted batch continues the plan. */
  lemma BatchContinues(base: u32, plan: seq<Sample>, samples: seq<Sample>, previous: u32, lead: Lead,
                       limits: JointLimits)
    requires Increasing(plan) && Windowed(base, plan) && Acceptable(samples, 0, previous, lead, limits)
    requires plan != [] ==> previous == plan[|plan| - 1].tick
    requires Since(base, lead.now) + lead.maximum < TWO_31
    ensures Increasing(plan + samples) && Windowed(base, plan + samples)
  {
    hide PoseOk;
    var all := plan + samples;
    forall i | |plan| <= i < |all|
      ensures Since(base, all[i].tick) < TWO_31
      ensures 0 < i ==> TickAfter(all[i].tick, all[i - 1].tick)
    {
      assert all[i] == samples[i - |plan|];
      assert Fits(samples[i - |plan|], TickBefore(samples, 0, previous, i - |plan|), lead, limits);
    }
  }

  lemma AdmitTracks(base: u32, clock: u32, t: Track, limits: JointLimits, samples: seq<Sample>, lead: Lead)
    requires Tracks(base, clock, t, limits) && EventTimely(base, clock, AdmitEvent(samples, lead))
    ensures Tracks(base, lead.now, Follow(t, limits, AdmitEvent(samples, lead)), limits)
  {
    hide Good, Increasing, Windowed, PushVerdict, Acceptable;
    GoodQueue(t.exec, limits);
    HandleKeeps(t.exec, limits, AdmitEvent(samples, lead));
    var previous := PreviousTick(t.exec.queue, lead.now);
    if Handle(t.exec, limits, AdmitEvent(samples, lead)).1 == Ok {
      PushIsExact(t.exec.queue, samples, lead, limits);
      BatchContinues(base, t.plan, samples, previous, lead, limits);
    }
  }

  lemma GoodQueue(e: Exec, limits: JointLimits)
    requires Good(e, limits)
    ensures Increasing(e.queue) && AllWithin(e.queue, limits) && |e.queue| <= RING_SIZE
    ensures e.diag.state == Running ==> e.queue != []
  {
  }

  /** The sample a step takes off the queue is what it puts out, and success
      means that it was the last one. */
  lemma AppliedIsOutput(e: Exec, limits: JointLimits, now: u32)
    requires Good(e, limits) && AppliesNow(e, now)
    ensures var (after, _, out) := Step(e, now);
            && out == Some(e.queue[0].pos) && after.queue == e.queue[1..] && after.diag.state != Priming
            && (after.diag.state == Succeeded ==> e.queue[1..] == [])
  {
    hide NoteApplied, Between, Increasing, AllWithin, PoseOk, TickAfter;
    NotedKeeps(e.diag.(lastQueueResult := QueueOk), now, Sub32(now, e.queue[0].tick));
  }

  /** Any other step leaves the queue or ends short of success. */
  lemma OtherStepEnds(e: Exec, limits: JointLimits, now: u32)
    requires Good(e, limits) && !AppliesNow(e, now)
    ensures var after := Step(e, now).0;
            && (Accepting(after.diag.state) || after.diag.state == Succeeded ==> after == e)
  {
    hide NoteApplied, Between, Increasing, AllWithin, PoseOk;
  }

  lemma StepTracks(base: u32, clock: u32, t: Track, limits: JointLimits, now: u32)
    requires Tracks(base, clock, t, limits) && EventTimely(base, clock, StepEvent(now))
    ensures Tracks(base, now, Follow(t, limits, StepEvent(now)), limits)
  {
    hide Good, Increasing, Step;
    HandleKeeps(t.exec, limits, StepEvent(now));
    GoodQueue(t.exec, limits);
    if !AppliesNow(t.exec, now) {
      OtherStepEnds(t.exec, limits, now);
    } else {
      AppliedIsOutput(t.exec, limits, now);
      var next := t.exec.queue[0];
      assert t.plan[|t.applied|] == next;
      HalfWindow(base, now, next.tick);
      assert t.plan == (t.applied + [next]) + t.exec.queue[1..];
    }
  }

  lemma FollowTracks(base: u32, clock: u32, t: Track, limits: JointLimits, event: Event)
    requires Tracks(base, clock, t, limits) && EventTimely(base, clock, event)
    ensures Tracks(base, EventClock(clock, event), Follow(t, limits, event), limits)
  {
    hide Good, Increasing, Windowed;
    match event
    case AdmitEvent(samples, lead) => AdmitTracks(base, clock, t, limits, samples, lead);
    case StepEvent(now) => StepTracks(base, clock, t, limits, now);
    case _ => HandleKeeps(t.exec, limits, event);
  }

  /** Plan refinement of the buffered executor, over every run with a forward
      clock and leads inside the half-window. */
  lemma {:induction false} RunsTrackThePlan(base: u32, clock: u32, t: Track, limits: JointLimits, events: seq<Event>)
    requires Tracks(base, clock, t, limits) && EventsTimely(base, clock, events)
    ensures Tracks(base, LastClock(clock, events), FollowAll(t, limits, events), limits)
    ensures FollowAll(t, limits, events).exec == Run(t.exec, limits, events)
    decreases |events|
  {
    hide Tracks, EventTimely, Handle;
    if events != [] {
      FollowTracks(base, clock, t, limits, events[0]);
      RunsTrackThePlan(base, EventClock(clock, events[0]), Follow(t, limits, events[0]), limits, events[1..]);
    }
  }

  /** From initialisation: the plan is in strict order from first to last, and
      so is the queue; what was applied is its beginning, none of it early; and
      an executor that succeeded has applied all of it. */
  lemma RunsFromInitTrack(base: u32, minimumStart: nat, allowedLateness: u32, limits: JointLimits, events: seq<Event>)
    requires Init(minimumStart, allowedLateness).Some? && EventsTimely(base, base, events)
    ensures var t := FollowAll(Track(Init(minimumStart, allowedLateness).value, [], []), limits, events);
            && t.exec == Run(Init(minimumStart, allowedLateness).value, limits, events)
            && (forall i, j :: 0 <= i < j < |t.plan| ==> Since(base, t.plan[i].tick) < Since(base, t.plan[j].tick))
            && (forall i, j :: 0 <= i < j < |t.exec.queue| ==>
                  Since(base, t.exec.queue[i].tick) < Since(base, t.exec.queue[j].tick))
            && t.applied <= t.plan
            && (Accepting(t.exec.diag.state) ==> t.plan == t.applied + t.exec.queue)
            && (t.exec.diag.state == Succeeded ==> t.applied == t.plan)
            && forall i :: 0 <= i < |t.applied| ==>
                 Since(base, t.applied[i].tick) <= Since(base, LastClock(base, events))
  {
    hide Good, Increasing, Init, FollowAll, EventsTimely;
    var reset := Init(minimumStart, allowedLateness).value;
    InitTracks(base, minimumStart, allowedLateness, limits);
    RunsTrackThePlan(base, base, Track(reset, [], []), limits, events);
    var t := FollowAll(Track(reset, [], []), limits, events);
    forall i, j | 0 <= i < j < |t.plan|
      ensures Since(base, t.plan[i].tick) < Since(base, t.plan[j].tick)
    {
      IncreasingIsOrdered(base, t.plan, i, j);
    }
    GoodEnded(t.exec, limits);
    forall i, j | 0 <= i < j < |t.exec.queue|
      ensures Since(base, t.exec.queue[i].tick) < Since(base, t.exec.queue[j].tick)
    {
      assert t.exec.queue[i] == t.plan[|t.applied| + i] && t.exec.queue[j] == t.plan[|t.applied| + j];
    }
  }

  lemma GoodEnded(e: Exec, limits: JointLimits)
    requires Good(e, limits)
    ensures e.queue != [] ==> Accepting(e.diag.state)
  {
  }

  lemma InitTracks(base: u32, minimumStart: nat, allowedLateness: u32, limits: JointLimits)
    requires Init(minimumStart, allowedLateness).Some?
    ensures Tracks(base, base, Track(Init(minimumStart, allowedLateness).value, [], []), limits)
  {
    hide Good;
    InitIsGood(minimumStart, allowedLateness, limits);
  }
}
