/** The slew bound over whole runs. The executor is started at a tick E and
    stepped at E, E + 5, E + 10, ...; in between, batches are appended and
    feedback is checked. */
module SlewBound {
  import opened Words
  import opened Interpolation
  import opened StreamContract
  import opened StreamSession
  import opened StreamExecutor
  import opened ExecutorRuns
  import opened Timeline
  import opened PlanRefinement
  import opened SegmentSlew
  import opened GridSplice

  // ---- Spacing of the queue ----

  /** Appends keep the whole queue within the step limit, sample to sample. */
  lemma AppendKeepsSteps(e: Executor, b: Batch, now: u32)
    requires WellDecoded(b) && Sound(e)
    requires StepsAllowed(e.session.samples, e.session.policy.maximumStep)
    requires ExecAdmitBatch(e, b, Append, now).1 == Done
    ensures StepsAllowed(e.session.samples + b.samples, e.session.policy.maximumStep)
  {
    var queue, m := e.session.samples, e.session.policy.maximumStep;
    AppendAccepted(e, b, now);
    var all := queue + b.samples;
    forall i | 0 < i < |all|
      ensures StepAllowed(all[i - 1], all[i], m)
    {
      if |queue| < i {
        assert all[i - 1] == b.samples[i - 1 - |queue|] && all[i] == b.samples[i - |queue|];
      } else if i == |queue| {
        assert all[i - 1] == queue[i - 1] && all[i] == b.samples[0];
      }
    }
  }

  /** An accepted append has allowed steps inside, and from the queue's tail. */
  lemma AppendAccepted(e: Executor, b: Batch, now: u32)
    requires WellDecoded(b) && ExecAdmitBatch(e, b, Append, now).1 == Done
    ensures StepsAllowed(b.samples, e.session.policy.maximumStep)
    ensures var queue := e.session.samples;
            |queue| > 0 ==> StepAllowed(queue[|queue| - 1], b.samples[0], e.session.policy.maximumStep)
  {
    assert BatchVerdict(e.session, b, Append, now, ZERO_VEC) == ContractOk;
  }

  // ---- The run invariant ----

  /** The queue lies, in order and in allowed steps, after the (k-1)-th control
      tick and after the anchor: nothing in it is overdue. */
  ghost predicate QueueAhead(E: u32, k: nat, a: nat, queue: seq<Setpoint>, m: Vec) {
    && Ordered(E, queue) && StepsAllowed(queue, m)
    && forall i :: 0 <= i < |queue| ==>
         Near(E, queue[i].tick) && 5 * k < Since(E, queue[i].tick) + 5 && a < Since(E, queue[i].tick)
  }

  /** The segment from the anchor to the first sample, `span` ms long. */
  ghost predicate SegmentOk(from: Vec, to: Vec, a: nat, span: int, m: Vec) {
    0 < span < TWO_32 && Reaches(from, to, span, m) && (span % 5 == 0 || a == 0)
  }

  /** Before the k-th step of a run started at E. */
  ghost predicate OnTime(E: u32, k: nat, e: Executor) {
    && e.diag.state == Running && e.anchorValid && e.controlEpochTick == E
    && 5 * k + 5 < TWO_31
    && PolicyInForce(e.session.policy, e.caps)
    && (e.lastStepValid ==> Since(E, e.lastStepTick) <= 5 * k)
    && Since(E, e.anchor.tick) <= 5 * k
    && (e.session.samples == [] ==> Since(E, e.anchor.tick) + 5 <= 5 * k)
    && QueueAhead(E, k, Since(E, e.anchor.tick), e.session.samples, e.session.policy.maximumStep)
    && (e.session.samples != [] ==>
          SegmentOk(e.anchor.pos, e.session.samples[0].pos, Since(E, e.anchor.tick),
                    Since(E, e.session.samples[0].tick) - Since(E, e.anchor.tick), e.session.policy.maximumStep))
  }

  /** `prev` was put out at control tick k - 1: it is the start of the segment,
      applied just then, or a point of the segment. */
  ghost predicate OnSegment(from: Vec, to: Vec, a: nat, r0: nat, k: nat, prev: Vec) {
    || (prev == from && a <= 5 * k - 5 < a + 5 && (r0 - a) % 5 == 0)
    || (a <= 5 * k - 5 < r0 < TWO_32 && prev == LerpVec(from, to, 5 * k - 5 - a, r0 - a))
  }

  /** What the k-th step puts out on a segment from tick `a` to tick `r0`: its
      end if that is due, a point of it otherwise. */
  function SegmentPoint(from: Vec, to: Vec, a: nat, r0: nat, k: nat): Vec
    requires a < r0 < TWO_32 && a <= 5 * k
  {
    if r0 <= 5 * k then to else LerpVec(from, to, 5 * k - a, r0 - a)
  }

  /** One joint's share of the way from `a` to `b`. */
  function Move(a: i32, b: i32, along: int, span: nat): int
    requires 0 < span
  {
    TruncDiv((b - a) * along, span)
  }

  /** How far the k-th step is along that segment moves no joint by more than c
      step limits. An executor that has held its anchor since tick `a` makes
      this move at once. */
  ghost predicate ResumeClose(from: Vec, to: Vec, a: nat, r0: nat, k: nat, m: Vec, c: nat)
    requires a < r0
  {
    var along := if r0 <= 5 * k then r0 - a else 5 * k - a;
    forall j :: 0 <= j < JOINT_COUNT ==> -(c * m[j]) <= Move(from[j], to[j], along, r0 - a) <= c * m[j]
  }

  /** The segment an executor is on. */
  function SegmentStart(E: u32, e: Executor): nat {
    Since(E, e.anchor.tick)
  }

  function SegmentEnd(E: u32, e: Executor): nat
    requires e.session.samples != []
  {
    Since(E, e.session.samples[0].tick)
  }

  /** What the previous step put out, if there was one: a point of the present
      segment, the anchor it holds, or the anchor it held until an append that
      the next step can follow closely. */
  ghost predicate Follows(E: u32, k: nat, e: Executor, history: seq<Vec>, c: nat) {
    && |history| <= 1 && (k == 0 ==> history == [])
    && (history != [] ==>
          if e.session.samples == [] then history[0] == e.anchor.pos
          else
            var a, r0, to := SegmentStart(E, e), SegmentEnd(E, e), e.session.samples[0].pos;
            || OnSegment(e.anchor.pos, to, a, r0, k, history[0])
            || (history[0] == e.anchor.pos && a < r0
                && ResumeClose(e.anchor.pos, to, a, r0, k, e.session.policy.maximumStep, c)))
  }

  /** The present segment starts and ends on the control grid. */
  ghost predicate Aligned(E: u32, e: Executor) {
    && Since(E, e.anchor.tick) % 5 == 0
    && (e.session.samples != [] ==> Since(E, e.session.samples[0].tick) % 5 == 0)
  }

  /** Neighbouring vectors differ by at most c step limits on every joint. */
  ghost predicate Slewed(vs: seq<Vec>, m: Vec, c: nat) {
    forall i :: 0 < i < |vs| ==> Close(vs[i - 1], vs[i], m, c)
  }

  // ---- One step ----

  /** The k-th control tick of the run. */
  function TickOf(E: u32, k: nat): u32
    requires 5 * k < TWO_31
  {
    Add32(E, 5 * k)
  }

  /** Nothing stands between an on-time executor and its queue. */
  lemma GatesOpen(E: u32, k: nat, e: Executor)
    requires OnTime(E, k, e)
    ensures Since(E, TickOf(E, k)) == 5 * k
    ensures ExecStep(e, TickOf(E, k))
         == StepRunning(e.(lastStepTick := TickOf(E, k), lastStepValid := true), TickOf(E, k))
  {
    var now := TickOf(E, k);
    HalfWindow(E, e.anchor.tick, now);
    if e.lastStepValid {
      HalfWindow(E, e.lastStepTick, now);
    }
  }

  lemma ControlTickIs(E: u32, k: nat, tick: u32)
    requires Near(E, tick) && 5 * k + 5 < TWO_31 && 5 * k < Since(E, tick) + 5
    ensures Since(E, tick) <= 5 * k ==> FirstControlTick(E, tick) == TickOf(E, k)
    ensures 5 * k < Since(E, tick) ==> TickAfter(FirstControlTick(E, tick), TickOf(E, k))
    ensures !TickAfter(TickOf(E, k), TickOf(E, k))
  {
    var due := FirstControlTick(E, tick);
    ControlTickOf(E, E, tick);
    HalfWindow(E, due, TickOf(E, k));
  }

  /** The first sample is applied at the k-th step exactly when the k-th
      control tick is the first one at or after it. */
  lemma DueNow(E: u32, k: nat, e: Executor)
    requires OnTime(E, k, e) && e.session.samples != []
    ensures !TickAfter(FirstControlTick(E, e.session.samples[0].tick), TickOf(E, k))
            <==> Since(E, e.session.samples[0].tick) <= 5 * k
    ensures Since(E, e.session.samples[0].tick) <= 5 * k ==>
              FirstControlTick(E, e.session.samples[0].tick) == TickOf(E, k)
  {
    ControlTickIs(E, k, e.session.samples[0].tick);
  }

  /** An on-time step either ends the run, holds, applies or interpolates. */
  lemma StepCases(E: u32, k: nat, e: Executor)
    requires OnTime(E, k, e)
    ensures var now := TickOf(E, k);
            var e' := e.(lastStepTick := now, lastStepValid := true);
            var r := ExecStep(e, now);
            || (r.0.diag.state != Running && Dispatched(r).None? && r.0.session == e.session)
            || (e.session.samples == [] && r == (RecordOutput(e', e.anchor.pos), OutputReady, Some(e.anchor.pos)))
            || (e.session.samples != [] && Since(E, e.session.samples[0].tick) <= 5 * k && r == StepApply(e', now, now))
            || (e.session.samples != [] && 5 * k < Since(E, e.session.samples[0].tick) && r == StepInterpolate(e', now))
  {
    hide QueueAhead, SegmentOk, PolicyInForce, StepApply, StepInterpolate;
    GatesOpen(E, k, e);
    if e.session.samples != [] {
      DueNow(E, k, e);
    }
  }

  /** An on-time step that dispatches nothing ends the run. */
  lemma DispatchOrEnd(E: u32, k: nat, e: Executor)
    requires OnTime(E, k, e)
    ensures var r := ExecStep(e, TickOf(E, k));
            && r.0.diag.state != Priming && r.0.diag.state != Closed
            && (Dispatched(r).None? ==> r.0.diag.state != Running)
  {
    hide QueueAhead, SegmentOk, PolicyInForce, LerpVec;
    GatesOpen(E, k, e);
  }

  lemma QueueFacts(E: u32, k: nat, a: nat, queue: seq<Setpoint>, m: Vec)
    requires QueueAhead(E, k, a, queue, m)
    ensures Ordered(E, queue) && StepsAllowed(queue, m)
    ensures queue != [] ==> Near(E, queue[0].tick) && 5 * k < Since(E, queue[0].tick) + 5 && a < Since(E, queue[0].tick)
  {
  }

  lemma QueueAdvances(E: u32, k: nat, a: nat, queue: seq<Setpoint>, m: Vec)
    requires QueueAhead(E, k, a, queue, m) && queue != []
    ensures Since(E, queue[0].tick) <= 5 * k ==> QueueAhead(E, k + 1, Since(E, queue[0].tick), queue[1..], m)
    ensures 5 * k < Since(E, queue[0].tick) ==> QueueAhead(E, k + 1, a, queue, m)
    ensures |queue| > 1 ==>
              && StepAllowed(queue[0], queue[1], m)
              && Sub32(queue[1].tick, queue[0].tick) == Since(E, queue[1].tick) - Since(E, queue[0].tick)
              && SegmentOk(queue[0].pos, queue[1].pos, Since(E, queue[0].tick),
                           Since(E, queue[1].tick) - Since(E, queue[0].tick), m)
  {
    var rest := queue[1..];
    if |queue| > 1 {
      assert StepAllowed(queue[0], queue[1], m);
      HalfWindow(E, queue[1].tick, queue[0].tick);
      AllowedReaches(queue[0], queue[1], m);
    }
    forall i | 0 <= i < |rest|
      ensures Since(E, queue[1].tick) <= Since(E, rest[i].tick)
      ensures Near(E, rest[i].tick) && Since(E, queue[0].tick) < Since(E, rest[i].tick)
      ensures 0 < i ==> StepAllowed(rest[i - 1], rest[i], m)
    {
      assert rest[i] == queue[i + 1];
      if 0 < i {
        assert StepAllowed(queue[i], queue[i + 1], m);
      }
    }
  }

  lemma ApplyStaysOnTime(E: u32, k: nat, e: Executor)
    requires OnTime(E, k, e) && 5 * k + 10 < TWO_31
    requires e.session.samples != [] && Since(E, e.session.samples[0].tick) <= 5 * k
    ensures var after := StepApply(e, TickOf(E, k), TickOf(E, k)).0;
            after.diag.state == Running ==> OnTime(E, k + 1, after)
  {
    hide QueueAhead, SegmentOk, PolicyInForce;
    QueueAdvances(E, k, Since(E, e.anchor.tick), e.session.samples, e.session.policy.maximumStep);
  }

  lemma InterpolateStaysOnTime(E: u32, k: nat, e: Executor)
    requires OnTime(E, k, e) && 5 * k + 10 < TWO_31
    requires e.session.samples != [] && 5 * k < Since(E, e.session.samples[0].tick)
    ensures var after := StepInterpolate(e, TickOf(E, k)).0;
            after.diag.state == Running ==> OnTime(E, k + 1, after)
  {
    hide QueueAhead, SegmentOk, PolicyInForce, LerpVec;
    QueueAdvances(E, k, Since(E, e.anchor.tick), e.session.samples, e.session.policy.maximumStep);
  }

  lemma HoldStaysOnTime(E: u32, k: nat, e: Executor)
    requires OnTime(E, k, e) && 5 * k + 10 < TWO_31 && e.session.samples == []
    ensures OnTime(E, k + 1, RecordOutput(e, e.anchor.pos))
  {
    hide SegmentOk, PolicyInForce;
  }

  /** Every step of an on-time run leaves the run on time, or ends it. */
  lemma StepStaysOnTime(E: u32, k: nat, e: Executor)
    requires OnTime(E, k, e) && 5 * k + 10 < TWO_31
    ensures var after := ExecStep(e, TickOf(E, k)).0;
            && (after.diag.state == Running ==> OnTime(E, k + 1, after))
            && after.session.policy == e.session.policy
            && after.session.horizonEndTick == e.session.horizonEndTick
  {
    var e' := e.(lastStepTick := TickOf(E, k), lastStepValid := true);
    StepCases(E, k, e);
    StepClock(E, k, e);
    if e.session.samples == [] {
      HoldStaysOnTime(E, k, e');
    } else if Since(E, e.session.samples[0].tick) <= 5 * k {
      ApplyStaysOnTime(E, k, e');
    } else {
      InterpolateStaysOnTime(E, k, e');
    }
    StepPolicy(e, TickOf(E, k));
  }

  lemma StepClock(E: u32, k: nat, e: Executor)
    requires OnTime(E, k, e)
    ensures OnTime(E, k, e.(lastStepTick := TickOf(E, k), lastStepValid := true))
  {
    hide QueueAhead, SegmentOk, PolicyInForce;
  }

  lemma StepPolicy(e: Executor, now: u32)
    ensures ExecStep(e, now).0.session.policy == e.session.policy
    ensures ExecStep(e, now).0.session.horizonEndTick == e.session.horizonEndTick
  {
    hide LerpVec;
  }

  // ---- Slew of one step ----

  lemma FromMiddle(from: Vec, to: Vec, a: nat, r0: nat, k: nat, m: Vec, c: nat, e2: nat)
    requires a < r0 < TWO_32 && SegmentOk(from, to, a, r0 - a, m) && (c == 1 || c == 2)
    requires forall j :: 0 <= j < JOINT_COUNT ==> 0 < m[j]
    requires c == 1 ==> (r0 - a) % 5 == 0
    requires a <= 5 * k - 5 < r0 && 5 * k - 5 - a <= e2 <= r0 - a && e2 <= 5 * k - a
    requires e2 == r0 - a || e2 == 5 * k - a
    ensures Close(LerpVec(from, to, 5 * k - 5 - a, r0 - a), LerpVec(from, to, e2, r0 - a), m, c)
  {
    PointsClose(from, to, r0 - a, 5 * k - 5 - a, e2, m, c);
  }

  lemma FromStart(from: Vec, to: Vec, a: nat, r0: nat, k: nat, m: Vec, c: nat, e2: nat)
    requires a < r0 < TWO_32 && SegmentOk(from, to, a, r0 - a, m) && (c == 1 || c == 2)
    requires forall j :: 0 <= j < JOINT_COUNT ==> 0 < m[j]
    requires c == 1 ==> a % 5 == 0
    requires (r0 - a) % 5 == 0 && a <= 5 * k - 5 < a + 5 && e2 <= r0 - a && e2 <= 5 * k - a
    ensures Close(from, LerpVec(from, to, e2, r0 - a), m, c)
  {
    SegmentEnds(from, to, r0 - a);
    PointsClose(from, to, r0 - a, 0, e2, m, c);
  }

  /** On a segment, the next output is close to the previous one: the sample
      itself if it is due, a later point of the segment otherwise. */
  lemma SegmentSlews(from: Vec, to: Vec, a: nat, r0: nat, k: nat, m: Vec, c: nat, prev: Vec)
    requires a < r0 < TWO_32 && SegmentOk(from, to, a, r0 - a, m) && OnSegment(from, to, a, r0, k, prev)
    requires forall j :: 0 <= j < JOINT_COUNT ==> 0 < m[j]
    requires c == 2 || (c == 1 && a % 5 == 0 && r0 % 5 == 0)
    ensures r0 <= 5 * k < r0 + 5 ==> Close(prev, to, m, c)
    ensures a <= 5 * k < r0 ==> Close(prev, LerpVec(from, to, 5 * k - a, r0 - a), m, c)
  {
    if (r0 <= 5 * k < r0 + 5) || (a <= 5 * k < r0) {
      var e2 := if r0 <= 5 * k then r0 - a else 5 * k - a;
      SegmentEnds(from, to, r0 - a);
      if prev == from && a <= 5 * k - 5 < a + 5 && (r0 - a) % 5 == 0 {
        FromStart(from, to, a, r0, k, m, c, e2);
      } else {
        FromMiddle(from, to, a, r0, k, m, c, e2);
      }
    }
  }

  lemma JointMove(a: i32, b: i32, along: u32, span: u32, bound: int)
    requires 0 < span && along <= span
    ensures AbsDiff(Lerp(a, b, along, span), a) <= bound <==> -bound <= Move(a, b, along, span) <= bound
  {
    LerpExact(a, b, along, span);
  }

  lemma PointAlong(from: Vec, to: Vec, a: nat, r0: nat, k: nat)
    requires a < r0 < TWO_32 && a <= 5 * k
    ensures var along := if r0 <= 5 * k then r0 - a else 5 * k - a;
            SegmentPoint(from, to, a, r0, k) == LerpVec(from, to, along, r0 - a)
  {
    hide LerpVec;
    SegmentEnds(from, to, r0 - a);
  }

  /** The move of `ResumeClose` is the move from the anchor to the next output. */
  lemma ResumeDecides(from: Vec, to: Vec, a: nat, r0: nat, k: nat, m: Vec, c: nat)
    requires a < r0 < TWO_32 && a <= 5 * k
    ensures Close(from, SegmentPoint(from, to, a, r0, k), m, c) <==> ResumeClose(from, to, a, r0, k, m, c)
  {
    hide SegmentPoint, Lerp, Move;
    var along := if r0 <= 5 * k then r0 - a else 5 * k - a;
    PointAlong(from, to, a, r0, k);
    var v := SegmentPoint(from, to, a, r0, k);
    forall j | 0 <= j < JOINT_COUNT
      ensures AbsDiff(v[j], from[j]) <= c * m[j]
         <==> -(c * m[j]) <= Move(from[j], to[j], along, r0 - a) <= c * m[j]
    {
      JointMove(from[j], to[j], along, r0 - a, c * m[j]);
    }
  }

  lemma SlewedPair(history: seq<Vec>, v: Vec, m: Vec, c: nat)
    requires |history| <= 1 && (history != [] ==> Close(history[0], v, m, c))
    ensures Slewed(history + [v], m, c)
  {
  }

  ghost predicate NextFollows(E: u32, k: nat, after: Executor, v: Vec, c: nat) {
    after.diag.state == Running ==> Follows(E, k + 1, after, [v], c) && (c == 1 ==> Aligned(E, after))
  }

  lemma NextSegment(E: u32, k: nat, a: nat, queue: seq<Setpoint>, m: Vec)
    requires QueueAhead(E, k, a, queue, m) && |queue| > 1 && Since(E, queue[0].tick) <= 5 * k
    ensures OnSegment(queue[0].pos, queue[1].pos, Since(E, queue[0].tick), Since(E, queue[1].tick), k + 1, queue[0].pos)
    ensures Since(E, queue[0].tick) % 5 == 0 ==> Since(E, queue[1].tick) % 5 == 0
  {
    hide Ordered, StepsAllowed, Near, QueueAhead, StepAllowed, SegmentOk, Since, Sub32, LerpVec;
    QueueFacts(E, k, a, queue, m);
    QueueAdvances(E, k, a, queue, m);
    StepOnGrid(queue[0], queue[1], m);
  }

  lemma StepOnGrid(from: Setpoint, to: Setpoint, m: Vec)
    requires StepAllowed(from, to, m)
    ensures Sub32(to.tick, from.tick) % CONTROL_TICK_MS == 0
  {
  }

  lemma ApplyShape(e: Executor, now: u32)
    requires e.session.samples != []
    ensures var r := StepApply(e, now, now);
            && r.2 == Some(e.session.samples[0].pos) && r.0.anchor == e.session.samples[0]
            && r.0.session == e.session.(samples := e.session.samples[1..])
  {
  }

  lemma ApplyFollows(E: u32, k: nat, e: Executor, c: nat)
    requires OnTime(E, k, e) && 5 * k + 10 < TWO_31 && (c == 1 ==> Aligned(E, e))
    requires e.session.samples != [] && Since(E, e.session.samples[0].tick) <= 5 * k
    ensures var r := StepApply(e, TickOf(E, k), TickOf(E, k));
            r.2 == Some(e.session.samples[0].pos) && NextFollows(E, k, r.0, e.session.samples[0].pos, c)
  {
    hide QueueAhead, PolicyInForce, SegmentOk, OnSegment, StepApply;
    ApplyShape(e, TickOf(E, k));
    if |e.session.samples| > 1 {
      NextSegment(E, k, Since(E, e.anchor.tick), e.session.samples, e.session.policy.maximumStep);
    }
  }

  lemma InterpolateFollows(E: u32, k: nat, e: Executor, c: nat)
    requires OnTime(E, k, e) && 5 * k + 10 < TWO_31 && (c == 1 ==> Aligned(E, e))
    requires e.session.samples != [] && 5 * k < Since(E, e.session.samples[0].tick)
    ensures var r := StepInterpolate(e, TickOf(E, k));
            var a := Since(E, e.anchor.tick);
            && r.2 == Some(LerpVec(e.anchor.pos, e.session.samples[0].pos, 5 * k - a, Since(E,
                e.session.samples[0].tick) - a))
            && NextFollows(E, k, r.0, r.2.value, c)
  {
    hide QueueAhead, PolicyInForce, LerpVec, Ordered, StepsAllowed, SegmentOk, ResumeClose;
    QueueFacts(E, k, Since(E, e.anchor.tick), e.session.samples, e.session.policy.maximumStep);
    HalfWindow(E, e.session.samples[0].tick, e.anchor.tick);
    HalfWindow(E, TickOf(E, k), e.anchor.tick);
  }

  lemma PolicySteps(policy: Policy, caps: HardCaps)
    requires PolicyInForce(policy, caps)
    ensures forall j :: 0 <= j < JOINT_COUNT ==> 0 < policy.maximumStep[j]
  {
  }

  lemma HoldFollows(E: u32, k: nat, e: Executor, c: nat)
    requires OnTime(E, k, e) && e.session.samples == [] && (c == 1 ==> Aligned(E, e))
    ensures NextFollows(E, k, RecordOutput(e, e.anchor.pos), e.anchor.pos, c)
  {
  }

  /** With something queued, a step dispatches the point of the segment. */
  lemma StepPoint(E: u32, k: nat, e: Executor)
    requires OnTime(E, k, e) && e.session.samples != [] && 5 * k + 10 < TWO_31
    requires Dispatched(ExecStep(e, TickOf(E, k))).Some?
    ensures SegmentStart(E, e) < SegmentEnd(E, e) && SegmentStart(E, e) <= 5 * k
    ensures Dispatched(ExecStep(e, TickOf(E, k))).value
         == SegmentPoint(e.anchor.pos, e.session.samples[0].pos, SegmentStart(E, e), SegmentEnd(E, e), k)
  {
    hide ExecStep, StepApply, StepInterpolate, NextFollows, QueueAhead, OnSegment, PolicyInForce;
    var e' := e.(lastStepTick := TickOf(E, k), lastStepValid := true);
    StepCases(E, k, e);
    StepClock(E, k, e);
    QueueFacts(E, k, Since(E, e.anchor.tick), e.session.samples, e.session.policy.maximumStep);
    if Since(E, e.session.samples[0].tick) <= 5 * k {
      ApplyFollows(E, k, e', 2);
    } else {
      InterpolateFollows(E, k, e', 2);
    }
  }

  /** What a step dispatches is close to what the step before it dispatched. */
  lemma StepSlews(E: u32, k: nat, e: Executor, history: seq<Vec>, c: nat)
    requires OnTime(E, k, e) && Follows(E, k, e, history, c) && 5 * k + 10 < TWO_31
    requires c == 2 || (c == 1 && Aligned(E, e))
    requires Dispatched(ExecStep(e, TickOf(E, k))).Some?
    ensures var r := ExecStep(e, TickOf(E, k));
            && Slewed(history + [Dispatched(r).value], e.session.policy.maximumStep, c)
            && NextFollows(E, k, r.0, Dispatched(r).value, c)
  {
    hide ExecStep, StepApply, StepInterpolate, NextFollows, Slewed, QueueAhead, OnSegment, PolicyInForce;
    var m, a := e.session.policy.maximumStep, Since(E, e.anchor.tick);
    var e' := e.(lastStepTick := TickOf(E, k), lastStepValid := true);
    var v := Dispatched(ExecStep(e, TickOf(E, k))).value;
    StepCases(E, k, e);
    StepClock(E, k, e);
    PolicySteps(e.session.policy, e.caps);
    QueueFacts(E, k, a, e.session.samples, m);
    if e.session.samples == [] {
      HoldFollows(E, k, e', c);
    } else {
      var queue := e.session.samples;
      var r0 := Since(E, queue[0].tick);
      if r0 <= 5 * k {
        ApplyFollows(E, k, e', c);
      } else {
        InterpolateFollows(E, k, e', c);
      }
      if history != [] {
        if OnSegment(e.anchor.pos, queue[0].pos, a, r0, k, history[0]) {
          SegmentSlews(e.anchor.pos, queue[0].pos, a, r0, k, m, c, history[0]);
        } else {
          ResumeDecides(e.anchor.pos, queue[0].pos, a, r0, k, m, c);
        }
      }
    }
    SlewedPair(history, v, m, c);
  }

  // ---- Runs ----

  /** An append into a drained queue: it arrives no earlier than the last step,
      and its first sample is an allowed step from the anchor, as the host's
      own validation against its tail makes sure. */
  ghost predicate Resuming(E: u32, k: nat, e: Executor, payload: seq<u8>, now: u32) {
    && 5 * k <= Since(E, now) + 5
    && DecodeBatch(payload, Append).Ok? && DecodeBatch(payload, Append).value.samples != []
    && StepAllowed(e.anchor, DecodeBatch(payload, Append).value.samples[0], e.session.policy.maximumStep)
  }

  /** A splice on the queue's line and grid, as the host builds it. */
  ghost predicate Continues(e: Executor, payload: seq<u8>) {
    DecodeBatch(payload, Splice).Ok? && OnLine(e.session.samples, DecodeBatch(payload, Splice).value)
  }

  /** A run started at E and about to take its k-th step: steps come at E,
      E + 5, ...; what is admitted are appends and splices that continue the
      line, and no new stream begins. Whatever is refused may come at any time. */
  ghost predicate Paced(E: u32, k: nat, e: Executor, events: seq<Event>)
    decreases |events|
  {
    events == [] ||
    match events[0]
    case StepEvent(now) =>
      5 * k + 10 < TWO_31 && now == TickOf(E, k) && Paced(E, k + 1, Handle(e, events[0]).0, events[1..])
    case AdmitEvent(payload, kind, now) =>
      && (Handle(e, events[0]).1 == Done ==>
            && Timely(E, E, e.caps, events[0])
            && if kind == Splice then Continues(e, payload)
               else e.session.samples == [] ==> Resuming(E, k, e, payload, now))
      && Paced(E, k, Handle(e, events[0]).0, events[1..])
    case FeedbackEvent(_, _, _, _) => Paced(E, k, Handle(e, events[0]).0, events[1..])
    case _ => Handle(e, events[0]).1 != Done && Paced(E, k, Handle(e, events[0]).0, events[1..])
  }

  /** Every append into a drained queue is one the executor can resume on
      closely, unless nothing was put out before it (`spoken`) or nothing is
      put out after it. */
  ghost predicate ResumesClose(E: u32, k: nat, e: Executor, events: seq<Event>, spoken: bool, c: nat)
    decreases |events|
  {
    events == [] ||
    var after := Handle(e, events[0]).0;
    match events[0]
    case StepEvent(_) => ResumesClose(E, k + 1, after, events[1..], true, c)
    case AdmitEvent(_, _, _) =>
      && (spoken && e.session.samples == [] && after.session.samples != [] && Outputs(after, events[1..]) != [] ==>
            && SegmentStart(E, after) < SegmentEnd(E, after)
            && ResumeClose(e.anchor.pos, after.session.samples[0].pos, SegmentStart(E, after), SegmentEnd(E, after), k,
                           e.session.policy.maximumStep, c))
      && ResumesClose(E, k, after, events[1..], spoken, c)
    case _ => ResumesClose(E, k, after, events[1..], spoken, c)
  }

  /** A run that has ended dispatches nothing more. */
  lemma {:induction false} EndedIsQuiet(E: u32, k: nat, e: Executor, events: seq<Event>)
    requires e.diag.state != Running && e.diag.state != Priming && Paced(E, k, e, events)
    ensures Outputs(e, events) == []
    decreases |events|
  {
    if events != [] {
      EndedIsQuiet(E, if events[0].StepEvent? then k + 1 else k, Handle(e, events[0]).0, events[1..]);
    }
  }

  lemma QueueExtends(E: u32, k: nat, a: nat, queue: seq<Setpoint>, more: seq<Setpoint>, m: Vec)
    requires QueueAhead(E, k, a, queue, m) && queue != []
    requires Ordered(E, more) && more != [] && StepsAllowed(queue + more, m)
    requires Since(E, queue[|queue| - 1].tick) < Since(E, more[0].tick)
    requires forall i :: 0 <= i < |more| ==> Near(E, more[i].tick)
    ensures QueueAhead(E, k, a, queue + more, m)
  {
    OrderedConcat(E, queue, more);
    forall i | |queue| <= i < |queue + more|
      ensures Since(E, queue[|queue| - 1].tick) < Since(E, (queue + more)[i].tick)
    {
      assert Since(E, more[0].tick) <= Since(E, more[i - |queue|].tick);
    }
  }

  /** An append into a queue that still holds something changes neither the
      present segment nor what came before. */
  lemma AppendStaysOnTime(E: u32, k: nat, e: Executor, b: Batch, now: u32)
    requires OnTime(E, k, e) && Sound(e) && e.session.samples != []
    requires WellDecoded(b) && WireOrdered(b)
    requires Since(E, now) + e.caps.maximumLeadMs + CONTROL_TICK_MS < TWO_31
    requires ExecAdmitBatch(e, b, Append, now).1 == Done
    ensures var after := ExecAdmitBatch(e, b, Append, now).0;
            && OnTime(E, k, after) && after.anchor == e.anchor
            && after.session.samples == e.session.samples + b.samples
            && after.session.policy == e.session.policy
  {
    hide ExecAdmitBatch, QueueAhead, SegmentOk, PolicyInForce, StepsAllowed, Ordered, Sound;
    var queue := e.session.samples;
    QueueFacts(E, k, Since(E, e.anchor.tick), queue, e.session.policy.maximumStep);
    AdmittedShape(e, b, Append, now);
    AppendKeepsSteps(e, b, now);
    AdmittedTicks(E, e, b, Append, now);
    QueueExtends(E, k, Since(E, e.anchor.tick), queue, b.samples, e.session.policy.maximumStep);
    assert queue[..|queue|] == queue;
  }

  lemma RefusedAdmit(e: Executor, payload: seq<u8>, kind: Kind, now: u32)
    requires ExecAdmit(e, payload, kind, now).1 != Done
    ensures var after := ExecAdmit(e, payload, kind, now).0;
            after == e.(diag := after.diag) && after.diag.state == e.diag.state
  {
    hide ExecAdmitBatch, DecodeBatch, NeighboursIncrease;
    if (e.diag.state == Priming || e.diag.state == Running) && DecodeBatch(payload, kind).Ok? {
      DecodedBatch(payload, kind);
      RefusedShape(e, DecodeBatch(payload, kind).value, kind, now);
    }
  }

  /** An accepted splice has allowed steps inside. */
  lemma SpliceAccepted(e: Executor, b: Batch, now: u32)
    requires WellDecoded(b) && ExecAdmitBatch(e, b, Splice, now).1 == Done
    ensures StepsAllowed(b.samples, e.session.policy.maximumStep)
  {
    hide ExecAdmitBatch, WithinOneStep;
    var at := AdmittedVerdict(e, b, Splice, now);
  }

  /** A splice on the line changes neither the present segment nor what came
      before. */
  lemma SpliceStaysOnTime(E: u32, k: nat, e: Executor, b: Batch, now: u32)
    requires OnTime(E, k, e) && Sound(e) && OnLine(e.session.samples, b)
    requires WellDecoded(b) && WireOrdered(b)
    requires Since(E, now) + e.caps.maximumLeadMs + CONTROL_TICK_MS < TWO_31
    requires ExecAdmitBatch(e, b, Splice, now).1 == Done
    ensures var after := ExecAdmitBatch(e, b, Splice, now).0;
            && OnTime(E, k, after) && after.anchor == e.anchor
            && after.session.samples != [] && after.session.samples[0] == e.session.samples[0]
            && after.session.policy == e.session.policy
  {
    hide ExecAdmitBatch, QueueAhead, SegmentOk, PolicyInForce, StepsAllowed, Ordered, Sound, OnLine, NeighboursIncrease,
         WireOrdered, Near;
    var queue, m, a := e.session.samples, e.session.policy.maximumStep, Since(E, e.anchor.tick);
    var kept := Kept(e.session, b, Splice);
    OnLineHas(queue, b);
    QueueFacts(E, k, a, queue, m);
    AdmittedShape(e, b, Splice, now);
    AdmittedTicks(E, e, b, Splice, now);
    SpliceAccepted(e, b, now);
    PolicySteps(e.session.policy, e.caps);
    SpliceWindow(E, b);
    SpliceJoins(E, queue, b, m);
    QueueSpliced(E, k, a, queue, kept, b.samples, m);
  }

  lemma OnLineHas(queue: seq<Setpoint>, b: Batch)
    requires OnLine(queue, b)
    ensures queue != [] && b.samples != []
  {
  }

  lemma SpliceWindow(E: u32, b: Batch)
    requires b.samples != [] && Near(E, b.samples[0].tick) && b.samples[0].tick == b.spliceAtTick
    ensures Since(E, b.spliceAtTick) < TWO_31
  {
  }

  /** What is kept and what is spliced on lie ahead as the queue did. */
  lemma QueueSpliced(E: u32, k: nat, a: nat, queue: seq<Setpoint>, kept: nat, more: seq<Setpoint>, m: Vec)
    requires QueueAhead(E, k, a, queue, m) && kept <= |queue| && queue != []
    requires Ordered(E, more) && more != [] && StepsAllowed(queue[..kept] + more, m)
    requires 0 < kept ==> Since(E, queue[kept - 1].tick) < Since(E, more[0].tick)
    requires kept == 0 ==> more[0] == queue[0]
    requires forall i :: 0 <= i < |more| ==> Near(E, more[i].tick)
    ensures QueueAhead(E, k, a, queue[..kept] + more, m)
  {
    hide StepsAllowed, Near;
    var next := queue[..kept] + more;
    OrderedSlice(E, queue, 0, kept);
    assert queue[0..kept] == queue[..kept];
    OrderedConcat(E, queue[..kept], more);
    forall i | 0 <= i < |next|
      ensures Near(E, next[i].tick) && 5 * k < Since(E, next[i].tick) + 5 && a < Since(E, next[i].tick)
    {
      if i < kept {
        assert next[i] == queue[i];
      } else {
        assert next[i] == more[i - kept] && Since(E, more[0].tick) <= Since(E, more[i - kept].tick);
        if 0 < kept {
          assert a < Since(E, queue[kept - 1].tick);
        }
      }
    }
  }

  /** An admission, refused or into a queue that still holds something, leaves
      the present segment where it was. */
  lemma AdmitKeepsSegment(E: u32, k: nat, e: Executor, payload: seq<u8>, kind: Kind, now: u32)
    requires Sound(e) && OnTime(E, k, e)
    requires ExecAdmit(e, payload, kind, now).1 == Done ==>
               && Timely(E, E, e.caps, AdmitEvent(payload, kind, now)) && e.session.samples != []
               && (kind == Splice ==> Continues(e, payload))
    ensures var after := ExecAdmit(e, payload, kind, now).0;
            && OnTime(E, k, after) && after.anchor == e.anchor && after.session.policy == e.session.policy
            && (e.session.samples == [] ==> after.session.samples == [])
            && (e.session.samples != [] ==>
                  after.session.samples != [] && after.session.samples[0] == e.session.samples[0])
  {
    hide ExecAdmitBatch, QueueAhead, SegmentOk, PolicyInForce, NeighboursIncrease, WireOrdered, Sound, OnLine;
    if ExecAdmit(e, payload, kind, now).1 == Done {
      DecodedBatch(payload, kind);
      if kind == Append {
        AppendStaysOnTime(E, k, e, DecodeBatch(payload, Append).value, now);
      } else {
        SpliceStaysOnTime(E, k, e, DecodeBatch(payload, Splice).value, now);
      }
    } else {
      RefusedAdmit(e, payload, kind, now);
    }
  }

  /** An admitted append into a drained queue, as the run's base sees it. */
  lemma DrainedAppendShape(E: u32, e: Executor, b: Batch, now: u32)
    requires Sound(e) && e.session.samples == [] && e.diag.state != Closed
    requires WellDecoded(b) && WireOrdered(b)
    requires Since(E, now) + e.caps.maximumLeadMs + CONTROL_TICK_MS < TWO_31
    requires ExecAdmitBatch(e, b, Append, now).1 == Done
    ensures var after := ExecAdmitBatch(e, b, Append, now).0;
            && after == e.(session := after.session, diag := after.diag)
            && after.session.samples == b.samples && after.session.policy == e.session.policy
            && after.diag.state == e.diag.state
    ensures Ordered(E, b.samples) && StepsAllowed(b.samples, e.session.policy.maximumStep)
    ensures forall i :: 0 <= i < |b.samples| ==>
              Near(E, b.samples[i].tick) && Since(E, now) < Since(E, b.samples[0].tick) <= Since(E, b.samples[i].tick)
  {
    hide ExecAdmitBatch, PolicyInForce, StepsAllowed, Sound, NeighboursIncrease, WireOrdered, Near, ValidateTransition,
         BatchWithinLimits, Since;
    AdmittedShape(e, b, Append, now);
    AppendAccepted(e, b, now);
    AdmittedTicks(E, e, b, Append, now);
    assert [] + b.samples == b.samples;
  }

  /** An append into a drained queue opens a segment from the anchor. */
  lemma DrainedAppendStaysOnTime(E: u32, k: nat, e: Executor, payload: seq<u8>, now: u32)
    requires OnTime(E, k, e) && Sound(e) && e.session.samples == []
    requires Timely(E, E, e.caps, AdmitEvent(payload, Append, now)) && Resuming(E, k, e, payload, now)
    requires ExecAdmit(e, payload, Append, now).1 == Done
    ensures var after := ExecAdmit(e, payload, Append, now).0;
            && OnTime(E, k, after) && Sound(after) && after.anchor == e.anchor
            && after.session.samples == DecodeBatch(payload, Append).value.samples != []
            && after.session.policy == e.session.policy
            && SegmentStart(E, after) < SegmentEnd(E, after)
            && (SegmentEnd(E, after) - SegmentStart(E, after)) % 5 == 0
  {
    hide ExecAdmitBatch, SegmentOk, PolicyInForce, StepsAllowed, Ordered, Sound, StepAllowed, WireOrdered,
         NeighboursIncrease, DecodeBatch;
    var b := DecodeBatch(payload, Append).value;
    var m, a := e.session.policy.maximumStep, Since(E, e.anchor.tick);
    DecodedBatch(payload, Append);
    AdmitKeeps(e, payload, Append, now);
    DrainedAppendShape(E, e, b, now);
    HalfWindow(E, b.samples[0].tick, e.anchor.tick);
    ResumeSegment(e.anchor, b.samples[0], m, a, Since(E, b.samples[0].tick));
  }

  lemma ResumeSegment(anchor: Setpoint, first: Setpoint, m: Vec, a: nat, r0: nat)
    requires StepAllowed(anchor, first, m) && a < r0 && Sub32(first.tick, anchor.tick) == r0 - a
    ensures SegmentOk(anchor.pos, first.pos, a, r0 - a, m) && (r0 - a) % 5 == 0
  {
    AllowedReaches(anchor, first, m);
  }

  /** The first output after an append into a drained queue stays within c step
      limits of the anchor held until then exactly when the part of the new
      segment that has already gone by does. */
  lemma DrainedAppendDecides(E: u32, k: nat, e: Executor, payload: seq<u8>, now: u32, c: nat)
    requires OnTime(E, k, e) && Sound(e) && e.session.samples == [] && 5 * k + 10 < TWO_31
    requires Timely(E, E, e.caps, AdmitEvent(payload, Append, now)) && Resuming(E, k, e, payload, now)
    requires ExecAdmit(e, payload, Append, now).1 == Done
    ensures var after := ExecAdmit(e, payload, Append, now).0;
            var v := Dispatched(ExecStep(after, TickOf(E, k)));
            && after.session.samples != [] && SegmentStart(E, after) < SegmentEnd(E, after)
            && (v.Some? ==>
                  (Close(e.anchor.pos, v.value, e.session.policy.maximumStep, c)
                   <==> ResumeClose(e.anchor.pos, after.session.samples[0].pos, SegmentStart(E, after),
                                    SegmentEnd(E, after), k, e.session.policy.maximumStep, c)))
  {
    hide ExecAdmit, ExecStep, OnTime, Sound, Timely, Resuming, Close, ResumeClose, SegmentPoint;
    var after := ExecAdmit(e, payload, Append, now).0;
    DrainedAppendStaysOnTime(E, k, e, payload, now);
    if Dispatched(ExecStep(after, TickOf(E, k))).Some? {
      StepPoint(E, k, after);
      ResumeDecides(e.anchor.pos, after.session.samples[0].pos, SegmentStart(E, after), SegmentEnd(E, after), k,
                    e.session.policy.maximumStep, c);
    }
  }

  lemma SlewedJoin(history: seq<Vec>, v: Vec, later: seq<Vec>, m: Vec, c: nat)
    requires Slewed(history + [v], m, c)
    ensures Slewed(history + ([v] + later), m, c) <==> Slewed([v] + later, m, c)
  {
    hide Close;
    var all, tail := history + ([v] + later), [v] + later;
    forall i | 0 < i < |all|
      ensures i <= |history| ==> Close(all[i - 1], all[i], m, c)
      ensures |history| < i ==> all[i - 1] == tail[i - 1 - |history|] && all[i] == tail[i - |history|]
    {
      if i <= |history| {
        assert all[i - 1] == (history + [v])[i - 1] && all[i] == (history + [v])[i];
      }
    }
    if Slewed(all, m, c) {
      forall i | 0 < i < |tail|
        ensures Close(tail[i - 1], tail[i], m, c)
      {
        assert tail[i - 1] == all[i - 1 + |history|] && tail[i] == all[i + |history|];
      }
    }
  }

  /** Nothing is asked of appends in a run that dispatches nothing more. */
  lemma {:induction false} QuietResumes(E: u32, k: nat, e: Executor, events: seq<Event>, spoken: bool, c: nat)
    requires Paced(E, k, e, events) && Outputs(e, events) == []
    ensures ResumesClose(E, k, e, events, spoken, c)
    decreases |events|
  {
    hide ExecOpen, ExecAdmit, ExecStart, ExecStep, ExecJointFeedback, Timely, Resuming;
    if events != [] {
      var after := Handle(e, events[0]).0;
      match events[0]
      case StepEvent(_) => QuietResumes(E, k + 1, after, events[1..], true, c);
      case _ => QuietResumes(E, k, after, events[1..], spoken, c);
    }
  }

  /** With something queued, the first vector still to be dispatched is the
      next step's point of the present segment. */
  lemma {:induction false} FirstOutputIs(E: u32, k: nat, e: Executor, events: seq<Event>)
    requires Sound(e) && OnTime(E, k, e) && e.session.samples != [] && Paced(E, k, e, events)
    requires Outputs(e, events) != []
    ensures SegmentStart(E, e) < SegmentEnd(E, e) && SegmentStart(E, e) <= 5 * k
    ensures Outputs(e, events)[0]
         == SegmentPoint(e.anchor.pos, e.session.samples[0].pos, SegmentStart(E, e), SegmentEnd(E, e), k)
    decreases |events|
  {
    hide ExecOpen, ExecAdmit, ExecStart, ExecStep, ExecJointFeedback, OnTime, Sound, Timely, Resuming;
    var after := Handle(e, events[0]).0;
    HandleKeeps(e, events[0]);
    match events[0]
    case StepEvent(now) =>
      DispatchOrEnd(E, k, e);
      if Dispatched(ExecStep(e, now)).Some? {
        StepPoint(E, k, e);
      } else {
        EndedIsQuiet(E, k + 1, after, events[1..]);
      }
    case AdmitEvent(payload, kind, now) =>
      AdmitKeepsSegment(E, k, e, payload, kind, now);
      FirstOutputIs(E, k, after, events[1..]);
    case FeedbackEvent(now, joint, commanded, measured) =>
      FeedbackKeepsSegment(E, k, e, now, joint, commanded, measured);
      if after.diag.state == Running {
        FirstOutputIs(E, k, after, events[1..]);
      } else {
        EndedIsQuiet(E, k, after, events[1..]);
      }
    case _ =>
      OnTimeRuns(E, k, e);
      RunningRefuses(e, events[0]);
      FirstOutputIs(E, k, after, events[1..]);
  }

  lemma OnTimeRuns(E: u32, k: nat, e: Executor)
    requires OnTime(E, k, e)
    ensures e.diag.state == Running
  {
  }

  /** A running executor answers an open or a start with a refusal. */
  lemma RunningRefuses(e: Executor, event: Event)
    requires e.diag.state == Running && (event.OpenEvent? || event.StartEvent?)
    ensures Handle(e, event) == (e, BadState)
  {
  }

  lemma SlewedAlone(history: seq<Vec>, m: Vec, c: nat)
    requires |history| <= 1
    ensures Slewed(history, m, c)
  {
  }

  lemma NotSlewed(history: seq<Vec>, later: seq<Vec>, m: Vec, c: nat)
    requires |history| == 1 && later != [] && !Close(history[0], later[0], m, c)
    ensures !Slewed(history + later, m, c)
  {
    hide Close;
    assert (history + later)[0] == history[0] && (history + later)[1] == later[0];
  }

  lemma FeedbackKeepsSegment(E: u32, k: nat, e: Executor, now: u32, joint: nat, commanded: i32, measured: i32)
    requires OnTime(E, k, e)
    ensures var after := ExecJointFeedback(e, now, joint, commanded, measured).0;
            && after.session == e.session && after.anchor == e.anchor && after.diag.state != Priming
            && (after.diag.state == Running ==> OnTime(E, k, after))
  {
    hide QueueAhead, SegmentOk, PolicyInForce;
  }

  /** The slew bound. Over a paced run, consecutive dispatched vectors differ
      per joint by at most two step limits, or by at most one (c == 1) when the
      segment the run starts on lies on the control grid, exactly when every
      append into a drained queue is one the executor can resume on closely. */
  lemma {:induction false} RunsAreSlewed(E: u32, k: nat, e: Executor, events: seq<Event>, history: seq<Vec>, c: nat)
    requires Sound(e) && OnTime(E, k, e) && Follows(E, k, e, history, c) && Paced(E, k, e, events)
    requires c == 2 || (c == 1 && Aligned(E, e))
    ensures Slewed(history + Outputs(e, events), e.session.policy.maximumStep, c)
       <==> ResumesClose(E, k, e, events, history != [], c)
    decreases |events|, 1
  {
    hide ExecOpen, ExecAdmit, ExecStart, ExecStep, ExecJointFeedback, OnTime, Sound, Timely, OnSegment, Resuming,
         Continues, ResumeClose, Aligned;
    if events == [] {
      assert history + [] == history;
    } else {
      match events[0]
      case StepEvent(now) => SlewedAfterStep(E, k, e, events, history, c);
      case AdmitEvent(payload, kind, now) => SlewedAfterAdmit(E, k, e, events, history, c);
      case FeedbackEvent(now, joint, commanded, measured) => SlewedAfterFeedback(E, k, e, events, history, c);
      case _ =>
        OnTimeRuns(E, k, e);
        RunningRefuses(e, events[0]);
        RunsAreSlewed(E, k, e, events[1..], history, c);
        assert Outputs(e, events) == Outputs(e, events[1..]);
    }
  }

  lemma {:induction false} SlewedAfterFeedback(E: u32, k: nat, e: Executor, events: seq<Event>, history: seq<Vec>,
                                          c: nat)
    requires events != [] && events[0].FeedbackEvent?
    requires Sound(e) && OnTime(E, k, e) && Follows(E, k, e, history, c) && Paced(E, k, e, events)
    requires c == 2 || (c == 1 && Aligned(E, e))
    ensures Slewed(history + Outputs(e, events), e.session.policy.maximumStep, c)
       <==> ResumesClose(E, k, e, events, history != [], c)
    decreases |events|, 0
  {
    hide ExecOpen, ExecAdmit, ExecStart, ExecStep, ExecJointFeedback, OnTime, Sound, Timely, Resuming, OnSegment,
         ResumeClose;
    var after := Handle(e, events[0]).0;
    HandleKeeps(e, events[0]);
    FeedbackKeepsSegment(E, k, e, events[0].now, events[0].joint, events[0].commanded, events[0].measured);
    assert Outputs(e, events) == Outputs(after, events[1..]);
    if after.diag.state == Running {
      RunsAreSlewed(E, k, after, events[1..], history, c);
    } else {
      EndedIsQuiet(E, k, after, events[1..]);
      QuietResumes(E, k, after, events[1..], history != [], c);
      assert history + [] == history;
    }
  }

  ghost predicate Ended(e: Executor) {
    e.diag.state != Running && e.diag.state != Priming
  }

  /** One step of the slew argument, summed up. */
  ghost predicate StepOutcome(E: u32, k: nat, after: Executor, out: seq<Vec>, history: seq<Vec>, m: Vec, c: nat) {
    && |out| <= 1 && (out == [] ==> Ended(after))
    && (out != [] ==> Slewed(history + out, m, c))
    && (after.diag.state == Running ==>
          Sound(after) && OnTime(E, k, after) && Follows(E, k, after, out, c) && (c == 1 ==> Aligned(E, after))
          && after.session.policy.maximumStep == m)
    && (after.diag.state != Running ==> Ended(after))
  }

  lemma StepHasOutcome(E: u32, k: nat, e: Executor, history: seq<Vec>, c: nat)
    requires Sound(e) && OnTime(E, k, e) && Follows(E, k, e, history, c) && 5 * k + 10 < TWO_31
    requires c == 2 || (c == 1 && Aligned(E, e))
    ensures StepOutcome(E, k + 1, ExecStep(e, TickOf(E, k)).0, DispatchedBy(e, StepEvent(TickOf(E, k))),
                        history, e.session.policy.maximumStep, c)
  {
    hide ExecStep, OnTime, Follows, Aligned, Slewed, Sound;
    StepStaysOnTime(E, k, e);
    StepKeeps(e, TickOf(E, k));
    DispatchOrEnd(E, k, e);
    if Dispatched(ExecStep(e, TickOf(E, k))).Some? {
      StepSlews(E, k, e, history, c);
    }
  }

  lemma {:induction false} SlewedAfterStep(E: u32, k: nat, e: Executor, events: seq<Event>, history: seq<Vec>, c: nat)
    requires events != [] && events[0].StepEvent?
    requires Sound(e) && OnTime(E, k, e) && Follows(E, k, e, history, c) && Paced(E, k, e, events)
    requires c == 2 || (c == 1 && Aligned(E, e))
    ensures Slewed(history + Outputs(e, events), e.session.policy.maximumStep, c)
       <==> ResumesClose(E, k, e, events, history != [], c)
    decreases |events|, 0
  {
    hide ExecOpen, ExecAdmit, ExecStart, ExecStep, ExecJointFeedback, OnTime, Sound, Timely, Slewed, Aligned,
         OnSegment, StepOutcome, Resuming, ResumeClose;
    StepHasOutcome(E, k, e, history, c);
    SlewedRest(E, k + 1, Handle(e, events[0]).0, DispatchedBy(e, events[0]), events[1..], history,
               e.session.policy.maximumStep, c);
  }

  lemma {:induction false} SlewedRest(E: u32, k: nat, after: Executor, out: seq<Vec>, rest: seq<Event>,
                                      history: seq<Vec>, m: Vec, c: nat)
    requires StepOutcome(E, k, after, out, history, m, c) && Paced(E, k, after, rest)
    requires |history| <= 1 && (c == 1 || c == 2)
    ensures Slewed(history + (out + Outputs(after, rest)), m, c) <==> ResumesClose(E, k, after, rest, true, c)
    decreases |rest|, 2
  {
    hide OnTime, Aligned, Sound, Paced, OnSegment, ResumesClose;
    if after.diag.state == Running {
      RunsAreSlewed(E, k, after, rest, out, c);
      assert [out[0]] == out;
      SlewedJoin(history, out[0], Outputs(after, rest), m, c);
    } else {
      EndedIsQuiet(E, k, after, rest);
      QuietResumes(E, k, after, rest, true, c);
      assert out + [] == out && history + [] == history;
    }
  }

  lemma {:induction false} SlewedAfterAdmit(E: u32, k: nat, e: Executor, events: seq<Event>, history: seq<Vec>, c: nat)
    requires events != [] && events[0].AdmitEvent?
    requires Sound(e) && OnTime(E, k, e) && Follows(E, k, e, history, c) && Paced(E, k, e, events)
    requires c == 2 || (c == 1 && Aligned(E, e))
    ensures Slewed(history + Outputs(e, events), e.session.policy.maximumStep, c)
       <==> ResumesClose(E, k, e, events, history != [], c)
    decreases |events|, 0
  {
    hide ExecOpen, ExecAdmit, ExecStart, ExecStep, ExecJointFeedback, OnTime, Sound, Timely, Slewed, OnSegment,
         ResumeClose, Resuming;
    var payload, kind, now := events[0].payload, events[0].kind, events[0].now;
    var after := Handle(e, events[0]).0;
    AdmitKeeps(e, payload, kind, now);
    assert Outputs(e, events) == Outputs(after, events[1..]);
    if Handle(e, events[0]).1 == Done && e.session.samples == [] {
      SlewedAfterResume(E, k, e, payload, now, events[1..], history, c);
    } else {
      AdmitKeepsSegment(E, k, e, payload, kind, now);
      RunsAreSlewed(E, k, after, events[1..], history, c);
    }
  }

  /** After an append into a drained queue the move of `ResumeClose` decides
      about the next output, and the run's bound goes on from there. */
  lemma {:induction false} SlewedAfterResume(E: u32, k: nat, e: Executor, payload: seq<u8>, now: u32,
                                             rest: seq<Event>, history: seq<Vec>, c: nat)
    requires Sound(e) && OnTime(E, k, e) && Follows(E, k, e, history, c) && e.session.samples == []
    requires Timely(E, E, e.caps, AdmitEvent(payload, Append, now)) && Resuming(E, k, e, payload, now)
    requires ExecAdmit(e, payload, Append, now).1 == Done && Paced(E, k, ExecAdmit(e, payload, Append, now).0, rest)
    requires c == 2 || (c == 1 && Aligned(E, e))
    ensures var after := ExecAdmit(e, payload, Append, now).0;
            && after.session.samples != [] && SegmentStart(E, after) < SegmentEnd(E, after)
            && (Slewed(history + Outputs(after, rest), e.session.policy.maximumStep, c)
                <==> ((history != [] && Outputs(after, rest) != [] ==>
                         ResumeClose(e.anchor.pos, after.session.samples[0].pos, SegmentStart(E, after),
                                     SegmentEnd(E, after), k, e.session.policy.maximumStep, c))
                      && ResumesClose(E, k, after, rest, history != [], c)))
    decreases |rest|, 2
  {
    hide ExecAdmit, OnTime, Sound, Timely, OnSegment, ResumeClose, Resuming, Paced, ResumesClose, Slewed, Close,
         SegmentPoint, Outputs;
    var after := ExecAdmit(e, payload, Append, now).0;
    var later := Outputs(after, rest);
    DrainedAppendStaysOnTime(E, k, e, payload, now);
    if history != [] && later == [] {
      QuietResumes(E, k, after, rest, true, c);
      assert history + later == history;
      SlewedAlone(history, e.session.policy.maximumStep, c);
    } else if history != [] && !ResumeClose(e.anchor.pos, after.session.samples[0].pos, SegmentStart(E, after),
                                            SegmentEnd(E, after), k, e.session.policy.maximumStep, c) {
      FirstOutputIs(E, k, after, rest);
      ResumeDecides(e.anchor.pos, after.session.samples[0].pos, SegmentStart(E, after), SegmentEnd(E, after), k,
                    e.session.policy.maximumStep, c);
      NotSlewed(history, later, e.session.policy.maximumStep, c);
    } else {
      RunsAreSlewed(E, k, after, rest, history, c);
    }
  }

  // ---- The start of a run ----

  /** Whether the queue after the events may hold a splice: one was admitted
      since the last open. */
  function SplicedAfter(e: Executor, events: seq<Event>, spliced: bool): bool
    decreases |events|
  {
    if events == [] then spliced
    else
      var done := Handle(e, events[0]).1 == Done;
      SplicedAfter(Handle(e, events[0]).0, events[1..],
                   if done && events[0].OpenEvent? then false
                   else spliced || (done && events[0].AdmitEvent? && events[0].kind == Splice))
  }

  /** The queue keeps its step limits through anything but a splice. */
  lemma StepLimitsKept(e: Executor, event: Event)
    requires Sound(e)
    requires (event.OpenEvent? && Handle(e, event).1 == Done)
          || StepsAllowed(e.session.samples, e.session.policy.maximumStep)
    requires event.AdmitEvent? && Handle(e, event).1 == Done ==> event.kind == Append
    ensures var after := Handle(e, event).0;
            StepsAllowed(after.session.samples, after.session.policy.maximumStep)
  {
    hide StepAllowed, ExecAdmitBatch, ExecStep, NeighboursIncrease;
    match event
    case AdmitEvent(payload, kind, now) =>
      if ExecAdmit(e, payload, kind, now).1 == Done {
        var b := DecodeBatch(payload, Append).value;
        DecodedBatch(payload, Append);
        AppendKeepsSteps(e, b, now);
        AdmittedShape(e, b, Append, now);
        assert e.session.samples[..|e.session.samples|] == e.session.samples;
      } else {
        RefusedAdmit(e, payload, kind, now);
      }
    case StepEvent(now) =>
      StepShape(e, now);
      if ExecStep(e, now).0.session != e.session {
        RestStepsAllowed(e.session.samples, e.session.policy.maximumStep);
      }
    case _ =>
  }

  lemma RestStepsAllowed(queue: seq<Setpoint>, m: Vec)
    requires StepsAllowed(queue, m) && queue != []
    ensures StepsAllowed(queue[1..], m)
  {
    hide StepAllowed;
    forall i | 0 < i < |queue[1..]|
      ensures StepAllowed(queue[1..][i - 1], queue[1..][i], m)
    {
      assert StepAllowed(queue[i], queue[i + 1], m);
    }
  }

  /** Over any run, a queue without a splice in it is within the step limit,
      sample to sample. */
  lemma {:induction false} RunsKeepSteps(e: Executor, events: seq<Event>, spliced: bool)
    requires Sound(e) && (spliced || StepsAllowed(e.session.samples, e.session.policy.maximumStep))
    ensures var after := Run(e, events);
            SplicedAfter(e, events, spliced) || StepsAllowed(after.session.samples, after.session.policy.maximumStep)
    decreases |events|
  {
    hide ExecOpen, ExecAdmit, ExecStart, ExecStep, ExecJointFeedback, Sound, StepsAllowed;
    if events != [] {
      var event := events[0];
      var done := Handle(e, event).1 == Done;
      HandleKeeps(e, event);
      if (done && event.OpenEvent?) || (!spliced && !(done && event.AdmitEvent? && event.kind == Splice)) {
        StepLimitsKept(e, event);
      }
      RunsKeepSteps(Handle(e, event).0, events[1..],
                    if done && event.OpenEvent? then false
                    else spliced || (done && event.AdmitEvent? && event.kind == Splice));
    }
  }

  /** Distances seen from a later base. */
  lemma Rebase(base: u32, E: u32, tick: u32)
    requires Since(base, E) <= Since(base, tick) < TWO_31
    ensures Since(E, tick) == Since(base, tick) - Since(base, E)
  {
  }

  lemma RebaseOrdered(base: u32, E: u32, queue: seq<Setpoint>)
    requires Ordered(base, queue) && (forall i :: 0 <= i < |queue| ==> Near(base, queue[i].tick))
    requires Since(base, E) < TWO_31
    requires queue != [] ==> Since(base, E) < Since(base, queue[0].tick)
    ensures Ordered(E, queue)
    ensures forall i :: 0 <= i < |queue| ==> Near(E, queue[i].tick) && 0 < Since(E, queue[i].tick)
  {
    forall i | 0 <= i < |queue|
      ensures Since(E, queue[i].tick) == Since(base, queue[i].tick) - Since(base, E)
      ensures 0 < Since(E, queue[i].tick)
    {
      assert Since(base, queue[0].tick) <= Since(base, queue[i].tick);
      Rebase(base, E, queue[i].tick);
    }
  }

  /** A start from a primed queue is on time. */
  lemma LedgerStart(base: u32, clock: u32, l: Ledger, E: u32, pos: Vec, c: nat)
    requires Refines(base, clock, l) && Timely(base, clock, l.exec.caps, StartEvent(E, pos))
    requires StepsAllowed(l.exec.session.samples, l.exec.session.policy.maximumStep)
    requires ExecStart(l.exec, E, pos).1 == Done
    ensures l.exec.session.samples != [] && ExecStart(l.exec, E, pos).0.session == l.exec.session
    ensures Sound(ExecStart(l.exec, E, pos).0) && OnTime(E, 0, ExecStart(l.exec, E, pos).0)
    ensures Follows(E, 0, ExecStart(l.exec, E, pos).0, [], c)
    ensures Since(E, l.exec.session.samples[0].tick) % 5 == 0 ==> Aligned(E, ExecStart(l.exec, E, pos).0)
  {
    var queue := l.exec.session.samples;
    QueueOrdered(base, clock, l.applied, queue, l.plan);
    HalfWindow(base, queue[0].tick, E);
    RebaseOrdered(base, E, queue);
    assert AnchorReaches(queue[0], E, pos, l.exec.session.policy.maximumStep);
  }

  /** The executor after a reset and the priming events. */
  function Primed(caps: HardCaps, limits: Limits, priming: seq<Event>): Executor {
    Run(ExecInit(caps, limits), priming)
  }

  /** From reset, any timely events that leave no splice in the queue, and then
      a start at E that is accepted. */
  ghost predicate StartsPrimed(base: u32, caps: HardCaps, limits: Limits, priming: seq<Event>, E: u32, pos: Vec) {
    && TimelyRun(base, base, caps, priming) && Timely(base, EndClock(base, priming), caps, StartEvent(E, pos))
    && !SplicedAfter(ExecInit(caps, limits), priming, false)
    && ExecStart(Primed(caps, limits, priming), E, pos).1 == Done
  }

  /** A start after a reset and any priming is on time. */
  lemma StartIsOnTime(base: u32, caps: HardCaps, limits: Limits, priming: seq<Event>, E: u32, pos: Vec, c: nat)
    requires StartsPrimed(base, caps, limits, priming, E, pos)
    ensures var primed := Primed(caps, limits, priming);
            var started := ExecStart(primed, E, pos).0;
            && primed.session.samples != [] && started.session == primed.session
            && Sound(started) && OnTime(E, 0, started) && Follows(E, 0, started, [], c)
            && (Since(E, primed.session.samples[0].tick) % 5 == 0 ==> Aligned(E, started))
  {
    hide ExecStart, OnTime, Refines, Sound, Timely, TimelyRun, StepsAllowed, Follows, Aligned;
    RunsRefineFromReset(base, caps, limits, priming);
    InitIsSound(caps, limits);
    NothingSteps(caps, limits);
    RunsKeepSteps(ExecInit(caps, limits), priming, false);
    LedgerStart(base, EndClock(base, priming), BookAll(Ledger(ExecInit(caps, limits), [], []), priming), E, pos, c);
  }

  lemma NothingSteps(caps: HardCaps, limits: Limits)
    ensures var reset := ExecInit(caps, limits).session;
            StepsAllowed(reset.samples, reset.policy.maximumStep)
  {
  }

  /** The slew bound from reset: primed by any timely events without a splice,
      started at E, paced from there. */
  lemma StartedRunsAreSlewed(base: u32, caps: HardCaps, limits: Limits, priming: seq<Event>, E: u32, pos: Vec,
                             events: seq<Event>)
    requires StartsPrimed(base, caps, limits, priming, E, pos)
    requires Paced(E, 0, ExecStart(Primed(caps, limits, priming), E, pos).0, events)
    ensures var primed := Primed(caps, limits, priming);
            var started, m := ExecStart(primed, E, pos).0, primed.session.policy.maximumStep;
            && (Slewed(Outputs(started, events), m, 2) <==> ResumesClose(E, 0, started, events, false, 2))
            && primed.session.samples != []
            && (Since(E, primed.session.samples[0].tick) % 5 == 0 ==>
                  (Slewed(Outputs(started, events), m, 1) <==> ResumesClose(E, 0, started, events, false, 1)))
  {
    hide ExecStart, OnTime, Paced, Slewed, Outputs, Follows, Aligned, StartsPrimed, ResumesClose;
    var started := ExecStart(Primed(caps, limits, priming), E, pos).0;
    StartIsOnTime(base, caps, limits, priming, E, pos, 2);
    RunsAreSlewed(E, 0, started, events, [], 2);
    assert [] + Outputs(started, events) == Outputs(started, events);
    if Since(E, started.session.samples[0].tick) % 5 == 0 {
      StartIsOnTime(base, caps, limits, priming, E, pos, 1);
      RunsAreSlewed(E, 0, started, events, [], 1);
    }
  }
}
