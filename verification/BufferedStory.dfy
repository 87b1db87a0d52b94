/** The buffered executor as its requests and answers tell it: what was
    accepted, whether the input was closed, where it was started; and what it
    then does at its next step, start or batch. */
module BufferedStory {
  import opened Words
  import opened StreamSession
  import opened SetpointQueue
  import opened BufferedExecutor
  import opened BufferedRuns
  import opened BufferedPlan

  /** What has been agreed so far, besides the plan. */
  datatype Story = Story(closed: bool, start: Option<Sample>)

  function Tell(s: Story, event: Event, answer: Result): Story {
    if answer != Ok then s
    else
      match event
      case CompleteEvent => s.(closed := true)
      case StartEvent(tick, pos) => s.(start := Some(Sample(tick, pos)))
      case _ => s
  }

  function TellAll(s: Story, e: Exec, limits: JointLimits, events: seq<Event>): Story
    decreases |events|
  {
    if events == [] then s
    else TellAll(Tell(s, events[0], Handle(e, limits, events[0]).1), Handle(e, limits, events[0]).0, limits,
        events[1..])
  }

  /** Where the current segment starts: at what was applied last, or at the
      start. */
  function From(s: Story, applied: seq<Sample>): Sample
    requires s.start.Some?
  {
    if applied == [] then s.start.value else applied[|applied| - 1]
  }

  ghost predicate Told(s: Story, t: Track) {
    var e := t.exec;
    && e.diag.inputComplete == s.closed
    && (e.diag.state == Priming ==> s.start.None?)
    && (e.diag.state == Running ==> s.start.Some? && e.anchor == From(s, t.applied))
    && (s.start.None? && Accepting(e.diag.state) ==> e.diag.state == Priming)
  }

  lemma StepTells(base: u32, clock: u32, s: Story, t: Track, limits: JointLimits, now: u32)
    requires Tracks(base, clock, t, limits) && Told(s, t)
    ensures Told(s, Follow(t, limits, StepEvent(now)))
  {
    hide Good, Increasing, Windowed, Between, NoteApplied;
    RunningHasQueue(t, limits);
    if t.exec.diag.state == Running {
      NotedKeeps(t.exec.diag.(lastQueueResult := QueueOk), now, Sub32(now, t.exec.queue[0].tick));
    }
  }

  lemma RunningHasQueue(t: Track, limits: JointLimits)
    requires Good(t.exec, limits)
    ensures t.exec.diag.state == Running ==> t.exec.queue != [] && t.exec.anchorValid
  {
  }

  lemma EventTells(base: u32, clock: u32, s: Story, t: Track, limits: JointLimits, event: Event)
    requires Tracks(base, clock, t, limits) && Told(s, t)
    ensures Told(Tell(s, event, Handle(t.exec, limits, event).1), Follow(t, limits, event))
  {
    hide Good, Increasing, Windowed, PushVerdict, PoseOk, Step, TickAfter;
    match event
    case StepEvent(now) =>
      StepAnswers(t.exec, now);
      StepTells(base, clock, s, t, limits, now);
    case _ =>
  }

  lemma StepAnswers(e: Exec, now: u32)
    ensures Step(e, now).1 != Ok
  {
    hide NoteApplied, Between;
  }

  lemma {:induction false} RunsTell(base: u32, clock: u32, s: Story, t: Track, limits: JointLimits, events: seq<Event>)
    requires Tracks(base, clock, t, limits) && Told(s, t) && EventsTimely(base, clock, events)
    ensures Tracks(base, LastClock(clock, events), FollowAll(t, limits, events), limits)
    ensures Told(TellAll(s, t.exec, limits, events), FollowAll(t, limits, events))
    ensures FollowAll(t, limits, events).exec == Run(t.exec, limits, events)
    decreases |events|
  {
    hide Tracks, Told, EventTimely, Handle, Tell;
    if events != [] {
      FollowTracks(base, clock, t, limits, events[0]);
      EventTells(base, clock, s, t, limits, events[0]);
      FollowIs(t, limits, events[0]);
      RunsTell(base, EventClock(clock, events[0]), Tell(s, events[0], Handle(t.exec, limits, events[0]).1),
               Follow(t, limits, events[0]), limits, events[1..]);
    }
  }

  lemma FollowIs(t: Track, limits: JointLimits, event: Event)
    ensures Follow(t, limits, event).exec == Handle(t.exec, limits, event).0
  {
    hide Handle;
  }

  // ---- The next step ----

  type Stepped = (Exec, Result, Option<Pose>)

  /** The end of a run, with or without a safe stop. */
  ghost predicate Over(r: Stepped, state: State, reason: Reason, safeStop: bool, now: u32) {
    && r.0.diag.state == state && r.0.diag.reason == reason && r.0.diag.safeStopRequired == safeStop
    && r.0.diag.terminalTick == now && r.0.queue == []
  }

  /** What a step does, from the plan, the part of it applied, and what was
      agreed: too late for the next sample, it holds; at or after the sample, the
      sample goes out, and after the last one the run has succeeded if the input
      was closed and holds if not; before it, the line towards it; before the
      start of the segment it refuses. */
  ghost predicate StepTable(s: Story, applied: seq<Sample>, plan: seq<Sample>, allowed: u32, now: u32, r: Stepped)
    requires s.start.Some? && |applied| < |plan|
  {
    var next, from := plan[|applied|], From(s, applied);
    if now == next.tick || TickAfter(now, next.tick) then
      if Sub32(now, next.tick) > allowed then
        r.1 == Terminal && r.2.None? && Over(r, Hold, MissedApplyTick, true, now)
      else
        && r.1 == Output && r.2 == Some(next.pos) && r.0.diag.lastAppliedTick == now
        && (|plan| > |applied| + 1 ==> r.0.diag.state == Running && r.0.queue == plan[|applied| + 1..])
        && (|plan| == |applied| + 1 ==>
              if s.closed then Over(r, Succeeded, NoReason, false, now) else Over(r, Hold, QueueUnderflow, true, now))
    else if now == from.tick || TickAfter(now, from.tick) then
      r.1 == Output && r.2.Some? && OnTheLine(from, next, now, r.2.value) && r.0.diag.state == Running
    else r.1 == InvalidAnchor && r.2.None? && r.0.diag.state == Running
  }

  /** The next step, in every run. */
  lemma NextStep(base: u32, clock: u32, s: Story, t: Track, limits: JointLimits, now: u32)
    requires Tracks(base, clock, t, limits) && Told(s, t) && t.exec.diag.state == Running
    ensures s.start.Some? && |t.applied| < |t.plan|
    ensures StepTable(s, t.applied, t.plan, t.exec.allowedLateness, now, Step(t.exec, now))
  {
    hide Good, Increasing, Windowed, OnTheLine;
    var e := t.exec;
    RunningHasQueue(t, limits);
    assert t.plan[|t.applied|] == e.queue[0] && t.plan[|t.applied| + 1..] == e.queue[1..];
    StepExits(e, limits, now);
    if now == e.queue[0].tick || TickAfter(now, e.queue[0].tick) {
      AppliedOutcome(e, limits, now);
    }
  }

  lemma AppliedOutcome(e: Exec, limits: JointLimits, now: u32)
    requires Good(e, limits) && e.diag.state == Running
    requires now == e.queue[0].tick || TickAfter(now, e.queue[0].tick)
    ensures var r := Step(e, now);
            if Sub32(now, e.queue[0].tick) > e.allowedLateness then
              r.1 == Terminal && r.2.None? && Over(r, Hold, MissedApplyTick, true, now)
            else
              && r.1 == Output && r.2 == Some(e.queue[0].pos) && r.0.diag.lastAppliedTick == now
              && (|e.queue| > 1 ==> r.0.diag.state == Running && r.0.queue == e.queue[1..])
              && (|e.queue| == 1 ==>
                    if e.diag.inputComplete then Over(r, Succeeded, NoReason, false, now)
                    else Over(r, Hold, QueueUnderflow, true, now))
  {
    hide Increasing, AllWithin, PoseOk, Bucket;
  }

  // ---- The start, the batches and the end ----

  /** A run starts exactly when it waits, has samples, enough of them unless the
      input is closed, and a pose inside the limits before the first one. */
  lemma StartDecides(base: u32, clock: u32, s: Story, t: Track, limits: JointLimits, tick: u32, pos: Pose)
    requires Tracks(base, clock, t, limits) && Told(s, t)
    ensures var (after, answer) := Start(t.exec, tick, pos, limits);
            var waiting := s.start.None? && Accepting(t.exec.diag.state);
            && (answer == BadState <==> !waiting)
            && (waiting ==>
                  && (answer == NotPrimed <==> t.plan == [] || (|t.plan| < t.exec.minimumStart && !s.closed))
                  && (answer == Ok <==>
                        && t.plan != [] && (|t.plan| >= t.exec.minimumStart || s.closed)
                        && TickAfter(t.plan[0].tick, tick) && PoseOk(pos, limits)))
            && (answer != Ok ==> after == t.exec)
            && (answer == Ok ==> after.diag.state == Running && after.anchor == Sample(tick, pos)
                                 && after.queue == t.plan)
  {
    hide Good, Increasing, Windowed, PoseOk, TickAfter;
  }

  /** A batch is accepted exactly when the run has not ended, its input is open,
      there is room for all of it, and every sample is on time, after the one
      before it and inside the limits. */
  lemma AdmitDecides(base: u32, clock: u32, s: Story, t: Track, limits: JointLimits, samples: seq<Sample>, lead: Lead)
    requires Tracks(base, clock, t, limits) && Told(s, t)
    ensures var (after, answer) := AdmitBatch(t.exec, samples, lead, limits);
            && (answer == BadState <==> !Accepting(t.exec.diag.state) || s.closed)
            && (answer == Ok <==>
                  && Accepting(t.exec.diag.state) && !s.closed && samples != []
                  && |t.plan| - |t.applied| + |samples| <= 16 && lead.minimum <= lead.maximum
                  && Acceptable(samples, 0, if |t.plan| > |t.applied| then t.plan[|t.plan| - 1].tick else lead.now,
                                lead, limits))
            && (answer == Ok ==> after.queue == t.exec.queue + samples)
            && (answer != Ok ==> after.queue == t.exec.queue)
            && after.diag.state == t.exec.diag.state && after.diag.inputComplete == s.closed
  {
    hide Good, Increasing, Windowed, Acceptable, PushVerdict, AllWithin;
    GoodQueue(t.exec, limits);
    AcceptedLead(samples, if t.exec.queue != [] then t.exec.queue[|t.exec.queue| - 1].tick else lead.now, lead, limits);
    PushIsExact(t.exec.queue, samples, lead, limits);
    if t.exec.queue != [] && Accepting(t.exec.diag.state) {
      assert t.plan[|t.plan| - 1] == t.exec.queue[|t.exec.queue| - 1];
    }
  }

  lemma AcceptedLead(samples: seq<Sample>, previous: u32, lead: Lead, limits: JointLimits)
    ensures Acceptable(samples, 0, previous, lead, limits) && samples != [] ==> lead.minimum <= lead.maximum
  {
    hide PoseOk, TickAfter;
    if samples != [] && Acceptable(samples, 0, previous, lead, limits) {
      assert Fits(samples[0], TickBefore(samples, 0, previous, 0), lead, limits);
    }
  }

  /** The four ways a run is interrupted. */
  lemma InterruptDecides(e: Exec, what: Interruption, now: u32)
    ensures var (after, answer) := Interrupt(e, what, now);
            && (answer == BadState <==> !Accepting(e.diag.state)) && (answer == BadState ==> after == e)
            && (answer != BadState ==>
                  && answer == Terminal
                  && match what
                     case Plan => Over((after, answer, None), Hold, PlannedHold, false, now)
                     case Cancel => Over((after, answer, None), Canceled, OperatorCancel, true, now)
                     case Loss => Over((after, answer, None), Aborted, ConnectionLoss, true, now)
                     case Tracking => Over((after, answer, None), Aborted, TrackingError, true, now))
  {
  }

  /** From initialisation, every run keeps the story. */
  lemma RunsTellFromInit(base: u32, minimumStart: nat, allowedLateness: u32, limits: JointLimits, events: seq<Event>)
    requires Init(minimumStart, allowedLateness).Some? && EventsTimely(base, base, events)
    ensures var reset := Init(minimumStart, allowedLateness).value;
            var t := FollowAll(Track(reset, [], []), limits, events);
            && t.exec == Run(reset, limits, events) && Tracks(base, LastClock(base, events), t, limits)
            && Told(TellAll(Story(false, None), reset, limits, events), t)
    ensures 1 <= minimumStart <= 16
  {
    hide Tracks, EventsTimely, FollowAll, TellAll;
    InitTracks(base, minimumStart, allowedLateness, limits);
    RunsTell(base, base, Story(false, None), Track(Init(minimumStart, allowedLateness).value, [], []), limits, events);
  }

  /** The executor is initialised exactly with a start count a ring can hold. */
  lemma InitDecides(minimumStart: nat, allowedLateness: u32)
    ensures Init(minimumStart, allowedLateness).Some? <==> 1 <= minimumStart <= 16
    ensures Init(minimumStart, allowedLateness).Some? ==>
              var e := Init(minimumStart, allowedLateness).value;
              && e.queue == [] && e.diag.state == Priming && e.minimumStart == minimumStart
              && e.allowedLateness == allowedLateness
  {
  }
}
