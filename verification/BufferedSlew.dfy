/** The buffered executor in motion: what consecutive steps put out follows the
    line from sample to sample, forwards and no faster than the plan. */
module BufferedSlew {
  import opened Words
  import opened Interpolation
  import opened StreamSession
  import opened SetpointQueue
  import opened BufferedExecutor
  import opened BufferedRuns

  // ---- One segment ----

  /** `point` lies on the segment at `at`, which is inside it. */
  ghost predicate Reached(from: Sample, to: Sample, at: u32, point: Pose) {
    && Sub32(at, from.tick) <= Sub32(to.tick, from.tick) < TWO_31
    && OnTheLine(from, to, at, point)
  }

  /** On every joint the segment moves by at most k in any `window` ms. */
  ghost predicate Gentle(from: Sample, to: Sample, window: nat, k: nat) {
    var span := Sub32(to.tick, from.tick);
    forall j :: 0 <= j < LEFT_JOINTS ==>
      -(k * span) <= (to.pos[j] as int - from.pos[j]) * window <= k * span
  }

  ghost predicate WithinStep(a: Pose, b: Pose, k: nat) {
    forall j :: 0 <= j < LEFT_JOINTS ==> -(k as int) <= b[j] - a[j] <= k
  }

  ghost predicate BetweenPoses(a: Pose, b: Pose, x: Pose) {
    forall j :: 0 <= j < LEFT_JOINTS ==> Inside(a[j], b[j], x[j])
  }

  lemma ScaleWindow(d: int, m: nat, window: nat, bound: nat)
    requires m <= window && -(bound as int) <= d * window <= bound
    ensures -(bound as int) <= d * m <= bound
  {
    if 0 <= d {
      MulMono(d, m, window);
      MulMono(d, 0, m);
    } else {
      MulMono(-d, m, window);
      MulMono(-d, 0, m);
      NegMul(d, m);
      NegMul(d, window);
    }
  }

  /** Of two points of one line, in order, the later lies between the earlier
      and the end. */
  lemma LineForwards(a: int, b: int, e1: nat, e2: nat, span: nat)
    requires 0 < span && e1 <= e2 <= span
    ensures Inside(IdealLerp(a, b, e1, span), b, IdealLerp(a, b, e2, span))
  {
    IdealLerpBetween(a, b, e2, span);
    if a <= b {
      MulMono(b - a, e1, e2);
      TruncDivMonotone((b - a) * e1, (b - a) * e2, span);
    } else {
      MulMono(a - b, e1, e2);
      NegMul(a - b, e1);
      NegMul(a - b, e2);
      TruncDivMonotone((b - a) * e2, (b - a) * e1, span);
    }
  }

  lemma TruncDivMonotone(n1: int, n2: int, d: int)
    requires 0 < d && n1 <= n2
    ensures TruncDiv(n1, d) <= TruncDiv(n2, d)
  {
    TruncDivOneSided(n1, n2, d, 0);
  }

  /** The same, with the distance bounded by the segment's pace. */
  lemma LineMoves(a: int, b: int, e1: nat, e2: nat, span: nat, window: nat, k: nat)
    requires 0 < span && e1 <= e2 <= span && e2 <= e1 + window
    requires -(k * span) <= (b - a) * window <= k * span
    ensures Inside(IdealLerp(a, b, e1, span), b, IdealLerp(a, b, e2, span))
    ensures -(k as int) <= IdealLerp(a, b, e2, span) - IdealLerp(a, b, e1, span) <= k
  {
    hide IdealLerp;
    LineForwards(a, b, e1, e2, span);
    ScaleWindow(b - a, e2 - e1, window, k * span);
    LerpSlew(a, b, e1, e2, span, k);
  }

  lemma ReachedPoint(from: Sample, to: Sample, at: u32, point: Pose, j: nat)
    requires Reached(from, to, at, point) && j < LEFT_JOINTS
    ensures var span := Sub32(to.tick, from.tick);
            && 0 < span && Sub32(at, from.tick) <= span
            && point[j] == IdealLerp(from.pos[j], to.pos[j], Sub32(at, from.tick), span)
  {
  }

  lemma SegmentMoves(from: Sample, to: Sample, at: u32, later: u32, p: Pose, q: Pose, window: nat, k: nat)
    requires Reached(from, to, at, p) && Reached(from, to, later, q) && Gentle(from, to, window, k)
    requires Sub32(at, from.tick) <= Sub32(later, from.tick) <= Sub32(at, from.tick) as int + window
    ensures BetweenPoses(p, to.pos, q) && WithinStep(p, q, k)
  {
    hide Reached, Sub32, IdealLerp, Inside;
    forall j | 0 <= j < LEFT_JOINTS
      ensures Inside(p[j], to.pos[j], q[j]) && -(k as int) <= q[j] - p[j] <= k
    {
      ReachedPoint(from, to, at, p, j);
      ReachedPoint(from, to, later, q, j);
      LineMoves(from.pos[j], to.pos[j], Sub32(at, from.tick), Sub32(later, from.tick), Sub32(to.tick, from.tick),
                window, k);
    }
  }

  /** A segment starts and ends at its samples. */
  lemma SegmentEnds(from: Sample, to: Sample)
    requires TickAfter(to.tick, from.tick)
    ensures Reached(from, to, from.tick, from.pos) && Reached(from, to, to.tick, to.pos)
  {
    var span := Sub32(to.tick, from.tick);
    forall j | 0 <= j < LEFT_JOINTS
      ensures from.pos[j] == IdealLerp(from.pos[j], to.pos[j], 0, span)
      ensures to.pos[j] == IdealLerp(from.pos[j], to.pos[j], span, span)
    {
      IdealLerpBetween(from.pos[j], to.pos[j], 0, span);
      IdealLerpBetween(from.pos[j], to.pos[j], span, span);
    }
  }

  // ---- Paced runs ----

  /** The vector a step puts out. */
  function OutputsOf(e: Exec, event: Event): seq<Pose> {
    if event.StepEvent? && Step(e, event.now).2.Some? then [Step(e, event.now).2.value] else []
  }

  function Outputs(e: Exec, limits: JointLimits, events: seq<Event>): seq<Pose>
    decreases |events|
  {
    if events == [] then [] else OutputsOf(e, events[0]) + Outputs(Handle(e, limits, events[0]).0, limits, events[1..])
  }

  /** What is left of the plan moves by at most k in any `window` ms. */
  ghost predicate GentleAhead(e: Exec, window: nat, k: nat) {
    && (e.queue != [] ==> Gentle(e.anchor, e.queue[0], window, k))
    && forall i :: 0 < i < |e.queue| ==> Gentle(e.queue[i - 1], e.queue[i], window, k)
  }

  /** Steps come at most `period` ms apart, and whatever is admitted keeps the
      plan gentle. */
  ghost predicate PacedRun(e: Exec, limits: JointLimits, last: u32, period: nat, window: nat, k: nat,
                           events: seq<Event>)
    decreases |events|
  {
    events == [] ||
    var after := Handle(e, limits, events[0]).0;
    && (events[0].StepEvent? ==> Sub32(events[0].now, last) <= period)
    && (events[0].AdmitEvent? ==> GentleAhead(after, window, k))
    && PacedRun(after, limits, if events[0].StepEvent? then events[0].now else last, period, window, k, events[1..])
  }

  /** Where the executor is in its segment: the last vector put out, at `last`,
      was the point of `at`, no more than the allowed lateness before. */
  ghost predicate Following(e: Exec, last: u32, at: u32, point: Pose) {
    && e.queue != []
    && Reached(e.anchor, e.queue[0], at, point)
    && Sub32(last, at) <= e.allowedLateness
  }

  /** A step of a running executor: ended, or moved on by a step at most k. */
  ghost predicate MovesOn(e: Exec, limits: JointLimits, now: u32, point: Pose, k: nat) {
    var (after, result, out) := Step(e, now);
    if out.None? then after.diag.state != Running
    else
      && e.queue != [] && BetweenPoses(point, e.queue[0].pos, out.value) && WithinStep(point, out.value, k)
      && (after.diag.state == Running ==> exists at :: Following(after, now, at, out.value))
  }

  lemma Distances(a: u32, at: u32, last: u32, now: u32, next: u32, lateness: u32, period: nat)
    requires Sub32(at, a) <= Sub32(next, a) < TWO_31
    requires Sub32(last, at) <= lateness && Sub32(now, last) <= period && lateness + period < TWO_31
    ensures var due := now == next || TickAfter(now, next);
            && (due ==> Sub32(at, a) <= Sub32(next, a) <= Sub32(at, a) as int + lateness + period)
            && (!due ==> && Sub32(at, a) <= Sub32(now, a) <= Sub32(at, a) as int + lateness + period
                         && Sub32(now, a) <= Sub32(next, a) && (now == a || TickAfter(now, a)))
  {
  }

  lemma RunningAhead(e: Exec, limits: JointLimits)
    requires Good(e, limits) && e.diag.state == Running
    ensures e.queue != [] && TickAfter(e.queue[0].tick, e.anchor.tick)
  {
  }

  /** A step keeps the lateness bound and what is left of the plan. */
  lemma StepKeepsAhead(e: Exec, limits: JointLimits, now: u32, window: nat, k: nat)
    requires Good(e, limits) && e.diag.state == Running && GentleAhead(e, window, k)
    ensures Step(e, now).0.allowedLateness == e.allowedLateness
    ensures Step(e, now).0.diag.state == Running ==> GentleAhead(Step(e, now).0, window, k)
  {
    hide Gentle, PoseOk, Increasing, AllWithin, NoteApplied, Between, TickAfter;
    var after := Step(e, now).0;
    if after.diag.state == Running && after.queue != e.queue {
      NotedKeeps(e.diag.(lastQueueResult := QueueOk), now, Sub32(now, e.queue[0].tick));
      assert after.queue == e.queue[1..] && after.anchor == e.queue[0];
      forall i | 0 < i < |after.queue|
        ensures Gentle(after.queue[i - 1], after.queue[i], window, k)
      {
        assert after.queue[i] == e.queue[i + 1] && after.queue[i - 1] == e.queue[i];
      }
    }
  }

  lemma StepMovesOn(e: Exec, limits: JointLimits, last: u32, at: u32, now: u32, point: Pose, period: nat, k: nat)
    requires Good(e, limits) && e.diag.state == Running && Following(e, last, at, point)
    requires Sub32(now, last) <= period && e.allowedLateness + period < TWO_31
    requires GentleAhead(e, e.allowedLateness + period, k)
    ensures MovesOn(e, limits, now, point, k)
  {
    hide Gentle, Good, PoseOk, Increasing, AllWithin, OnTheLine, Step, TickAfter;
    var next := e.queue[0];
    var (after, result, out) := Step(e, now);
    StepExits(e, limits, now);
    StepKeeps(e, limits, now);
    StepKeepsAhead(e, limits, now, e.allowedLateness + period, k);
    Distances(e.anchor.tick, at, last, now, next.tick, e.allowedLateness, period);
    RunningAhead(e, limits);
    SegmentEnds(e.anchor, next);
    if out.Some? {
      if now == next.tick || TickAfter(now, next.tick) {
        SegmentMoves(e.anchor, next, at, next.tick, point, next.pos, e.allowedLateness + period, k);
        if after.diag.state == Running {
          RunningAhead(after, limits);
          SegmentEnds(after.anchor, after.queue[0]);
          assert Following(after, now, next.tick, out.value);
        }
      } else {
        SegmentMoves(e.anchor, next, at, now, point, out.value, e.allowedLateness + period, k);
        assert Following(after, now, now, out.value);
      }
    }
  }

  /** Every step of the run moves on from the vector put out before it. */
  ghost predicate MovesThroughout(e: Exec, limits: JointLimits, point: Pose, k: nat, events: seq<Event>)
    decreases |events|
  {
    events == [] ||
    var outs := OutputsOf(e, events[0]);
    && (e.diag.state == Running && events[0].StepEvent? ==> MovesOn(e, limits, events[0].now, point, k))
    && MovesThroughout(Handle(e, limits, events[0]).0, limits, if outs == [] then point else outs[0], k, events[1..])
  }

  /** An event that is not a step leaves a running executor where it is, or ends
      it. */
  lemma OtherKeepsFollowing(e: Exec, limits: JointLimits, last: u32, at: u32, point: Pose, event: Event)
    requires Good(e, limits) && e.diag.state == Running && Following(e, last, at, point) && !event.StepEvent?
    ensures var after := Handle(e, limits, event).0;
            && after.allowedLateness == e.allowedLateness && after.diag.state != Priming
            && (after.diag.state == Running ==> Following(after, last, at, point))
    ensures !event.AdmitEvent? && Handle(e, limits, event).0.diag.state == Running ==>
              Handle(e, limits, event).0.queue == e.queue && Handle(e, limits, event).0.anchor == e.anchor
  {
    hide PushVerdict, Increasing, AllWithin, PoseOk, OnTheLine;
  }

  /** An executor that has ended puts nothing out. */
  lemma {:induction false} EndedIsQuiet(e: Exec, limits: JointLimits, point: Pose, k: nat, events: seq<Event>)
    requires !Accepting(e.diag.state)
    ensures MovesThroughout(e, limits, point, k, events) && Outputs(e, limits, events) == []
    decreases |events|
  {
    hide MovesOn;
    if events != [] {
      assert Handle(e, limits, events[0]) == (e, BadState);
      EndedIsQuiet(e, limits, point, k, events[1..]);
    }
  }

  /** Slew of the buffered executor. Stepped at most `period` ms apart, on a plan
      that moves by at most k in any `period` plus the allowed lateness, every
      output lies between the one before it and the sample it heads for, and is
      at most k from the one before it. */
  lemma {:induction false} RunsMoveOn(e: Exec, limits: JointLimits, last: u32, at: u32, point: Pose, period: nat,
                                      k: nat, events: seq<Event>)
    requires Good(e, limits) && e.diag.state == Running && Following(e, last, at, point)
    requires e.allowedLateness + period < TWO_31 && GentleAhead(e, e.allowedLateness + period, k)
    requires PacedRun(e, limits, last, period, e.allowedLateness + period, k, events)
    ensures MovesThroughout(e, limits, point, k, events)
    decreases |events|
  {
    hide Good, GentleAhead, Following, Handle, Step, BetweenPoses, WithinStep;
    if events != [] {
      var event := events[0];
      var after := Handle(e, limits, event).0;
      HandleKeeps(e, limits, event);
      if event.StepEvent? {
        FollowsStep(e, limits, last, at, event.now, point, period, k);
        if after.diag.state == Running {
          var at' :| Following(after, event.now, at', OutputsOf(e, event)[0]);
          RunsMoveOn(after, limits, event.now, at', OutputsOf(e, event)[0], period, k, events[1..]);
        } else {
          EndedIsQuiet(after, limits, if OutputsOf(e, event) == [] then point else OutputsOf(e, event)[0], k,
                       events[1..]);
        }
      } else {
        OtherKeepsFollowing(e, limits, last, at, point, event);
        if after.diag.state == Running {
          AheadStays(e, after, e.allowedLateness + period, k);
          RunsMoveOn(after, limits, last, at, point, period, k, events[1..]);
        } else {
          EndedIsQuiet(after, limits, point, k, events[1..]);
        }
      }
    }
  }

  lemma AheadStays(e: Exec, after: Exec, window: nat, k: nat)
    requires GentleAhead(e, window, k)
    ensures after.queue == e.queue && after.anchor == e.anchor ==> GentleAhead(after, window, k)
  {
  }

  /** One step of such a run. */
  lemma FollowsStep(e: Exec, limits: JointLimits, last: u32, at: u32, now: u32, point: Pose, period: nat, k: nat)
    requires Good(e, limits) && e.diag.state == Running && Following(e, last, at, point)
    requires Sub32(now, last) <= period && e.allowedLateness + period < TWO_31
    requires GentleAhead(e, e.allowedLateness + period, k)
    ensures var after := Handle(e, limits, StepEvent(now)).0;
            && MovesOn(e, limits, now, point, k)
            && after.allowedLateness == e.allowedLateness && after.diag.state != Priming
            && (after.diag.state == Running ==>
                  && GentleAhead(after, e.allowedLateness + period, k)
                  && OutputsOf(e, StepEvent(now)) != []
                  && exists at' :: Following(after, now, at', OutputsOf(e, StepEvent(now))[0]))
  {
    hide Good, Following, Step, BetweenPoses, WithinStep;
    StepMovesOn(e, limits, last, at, now, point, period, k);
    StepKeepsAhead(e, limits, now, e.allowedLateness + period, k);
    NeverPrimes(e, now);
  }

  lemma NeverPrimes(e: Exec, now: u32)
    requires e.diag.state == Running
    ensures Step(e, now).0.diag.state != Priming
  {
    hide NoteApplied, Between;
    if e.queue != [] {
      NotedKeeps(e.diag.(lastQueueResult := DueResult(e.queue, e.queue[0].tick)), now, Sub32(now, e.queue[0].tick));
    }
  }

  /** From the start: the pose it is started at counts as the first output. */
  lemma StartedRunsMoveOn(e: Exec, limits: JointLimits, tick: u32, pos: Pose, period: nat, k: nat, events: seq<Event>)
    requires Good(e, limits) && Start(e, tick, pos, limits).1 == Ok
    requires var started := Start(e, tick, pos, limits).0;
             && e.allowedLateness + period < TWO_31 && GentleAhead(started, e.allowedLateness + period, k)
             && PacedRun(started, limits, tick, period, e.allowedLateness + period, k, events)
    ensures MovesThroughout(Start(e, tick, pos, limits).0, limits, pos, k, events)
  {
    hide Good, GentleAhead, PacedRun, MovesThroughout, OnTheLine;
    var started := Start(e, tick, pos, limits).0;
    HandleKeeps(e, limits, StartEvent(tick, pos));
    RunningAhead(started, limits);
    SegmentEnds(started.anchor, started.queue[0]);
    RunsMoveOn(started, limits, tick, tick, pos, period, k, events);
  }

  /** No two consecutive vectors are further apart than k. */
  ghost predicate Slewed(all: seq<Pose>, k: nat) {
    forall i :: 0 < i < |all| ==> WithinStep(all[i - 1], all[i], k)
  }

  lemma SlewedMore(point: Pose, next: Pose, outs: seq<Pose>, rest: seq<Pose>, k: nat)
    requires Slewed([next] + rest, k)
    requires if outs == [] then next == point else outs == [next] && WithinStep(point, next, k)
    ensures Slewed([point] + (outs + rest), k)
  {
    hide WithinStep;
    var all := [point] + (outs + rest);
    if outs == [] {
      assert all == [next] + rest;
    } else {
      assert all == [point] + ([next] + rest);
      forall i | 0 < i < |all|
        ensures WithinStep(all[i - 1], all[i], k)
      {
        assert 1 < i ==> all[i - 1] == ([next] + rest)[i - 2] && all[i] == ([next] + rest)[i - 1];
      }
    }
  }

  /** So no two consecutive outputs are further apart than k. */
  lemma {:induction false} OutputsAreClose(e: Exec, limits: JointLimits, point: Pose, k: nat, events: seq<Event>)
    requires MovesThroughout(e, limits, point, k, events) && e.diag.state != Priming
    ensures Slewed([point] + Outputs(e, limits, events), k)
    decreases |events|
  {
    hide WithinStep, BetweenPoses, Following, Handle, Step;
    if events != [] {
      var outs := OutputsOf(e, events[0]);
      var after := Handle(e, limits, events[0]).0;
      var next := if outs == [] then point else outs[0];
      StaysStarted(e, limits, events[0]);
      OutputsAreClose(after, limits, next, k, events[1..]);
      SlewedMore(point, next, outs, Outputs(after, limits, events[1..]), k);
    }
  }

  lemma StaysStarted(e: Exec, limits: JointLimits, event: Event)
    requires e.diag.state != Priming
    ensures Handle(e, limits, event).0.diag.state != Priming
    ensures OutputsOf(e, event) != [] ==> e.diag.state == Running && event.StepEvent? && |OutputsOf(e, event)| == 1
  {
    hide PushVerdict, Step;
    if event.StepEvent? && e.diag.state == Running {
      NeverPrimes(e, event.now);
    } else if event.StepEvent? {
      IdleStep(e, event.now);
    }
  }

  lemma IdleStep(e: Exec, now: u32)
    requires e.diag.state != Running
    ensures Step(e, now) == (e, BadState, None)
  {
  }
}
