/** What being in step gives: the MCU's queue is the end of the host's route,
    both interpolators return the same vector, and a splice the host builds
    shows the MCU no discontinuity. */
module HostGuarantees {
  import opened Words
  import opened Interpolation
  import opened StreamContract
  import opened StreamSession
  import opened StreamExecutor
  import opened ExecutorRuns
  import opened Timeline
  import opened PlanRefinement
  import opened WireCodec
  import opened HostAdapter
  import opened HostSimulation
  import opened HostRuns
  import SpliceContinuity

  // ---- The queue and the route ----

  ghost predicate IsSuffix(a: seq<Setpoint>, b: seq<Setpoint>) {
    |a| <= |b| && b[|b| - |a|..] == a
  }

  /** At every linked state of an active host: the MCU's queue restricted to
      ticks after the host's heartbeat is a suffix of the host's route, whose
      tail is the plan's; and epoch and horizon agree. */
  lemma QueueEndsRoute(o: u32, clock: u32, u: Setup, caps: HardCaps, s: System)
    requires Linked(o, clock, u, caps, s) && s.host.state == Active
    ensures var session := s.ledger.exec.session;
            && IsSuffix(FutureRoute(session.samples, s.beat), s.host.route)
            && session.arbiterEpoch == s.host.epoch && session.horizonEndTick == HorizonOf(s.host)
            && (session.samples != [] ==> s.host.tail == Some(session.samples[|session.samples| - 1]))
  {
    hide Refines, FutureRoute, IsSuffix, AsHostPolicy, PolicyRequest;
    var l := s.ledger;
    PlanIsParts(o, clock, l);
    FutureConcat(l.applied, l.exec.session.samples, s.beat);
    EndIsSuffix(FutureRoute(l.applied, s.beat), FutureRoute(l.exec.session.samples, s.beat));
    RouteEndsPlan(o, clock, u.cfg, s.host, l, s.beat);
  }

  lemma PlanIsParts(o: u32, clock: u32, l: Ledger)
    requires Refines(o, clock, l)
    ensures l.plan == l.applied + l.exec.session.samples
  {
    hide Sound, Ordered, Near;
  }

  lemma EndIsSuffix(a: seq<Setpoint>, b: seq<Setpoint>)
    ensures IsSuffix(b, a + b)
  {
  }

  /** The route ends where the plan ends. */
  lemma RouteEndsPlan(o: u32, clock: u32, cfg: Config, h: Host, l: Ledger, beat: u32)
    requires Refines(o, clock, l) && InStep(o, clock, cfg, h, l, beat)
    ensures l.plan != [] && h.tail == Some(l.plan[|l.plan| - 1])
    ensures IsSuffix(h.route, l.plan)
  {
    hide Refines;
    PlanOrdered(o, clock, l);
    var k := FutureIsCut(o, l.plan, beat);
    assert h.route[|h.route| - 1] == l.plan[|l.plan| - 1];
  }

  // ---- One interpolator in two languages ----

  lemma BetweenAgrees(left: Setpoint, right: Setpoint, tick: u32)
    requires HostTickAfter(tick, left.tick) && HostTickAfter(right.tick, tick)
    ensures HostBetween(left, right, tick)
         == PointAt([left, right], 0, tick)
  {
    hide IdealLerp, Lerp;
    var span, elapsed := Sub32(right.tick, left.tick), Sub32(tick, left.tick);
    InsideSegment(left.tick, tick, right.tick);
    DistanceIsSub(right.tick, left.tick);
    DistanceIsSub(tick, left.tick);
    forall j | 0 <= j < JOINT_COUNT
      ensures HostBetween(left, right, tick)[j] == LerpVec(left.pos, right.pos, elapsed, span)[j]
    {
      LerpExact(left.pos[j], right.pos[j], elapsed, span);
    }
  }

  lemma {:induction false} ExactScan(o: u32, route: seq<Setpoint>, tick: u32, i: nat, from: nat)
    requires Ordered(o, route) && from <= i < |route| && route[i].tick == tick
    ensures SampleAt(route, tick, from) == Some(route[i].pos)
    decreases i - from
  {
    if from < i {
      assert Since(o, route[from].tick) < Since(o, route[i].tick);
      ExactScan(o, route, tick, i, from + 1);
    }
  }

  lemma {:induction false} NoExact(route: seq<Setpoint>, tick: u32, from: nat)
    requires forall i :: 0 <= i < |route| ==> route[i].tick != tick
    ensures SampleAt(route, tick, from).None?
    decreases |route| - from
  {
    if from < |route| {
      NoExact(route, tick, from + 1);
    }
  }

  lemma {:induction false} SegmentScan(o: u32, route: seq<Setpoint>, tick: u32, i: nat, from: nat)
    requires Ordered(o, route) && Since(o, tick) < TWO_31 && from <= i && i + 1 < |route|
    requires Since(o, route[i].tick) < Since(o, tick) < Since(o, route[i + 1].tick)
    ensures HostTickAfter(tick, route[i].tick) && HostTickAfter(route[i + 1].tick, tick)
    ensures SegmentAt(route, tick, from) == Some(HostBetween(route[i], route[i + 1], tick))
    decreases i - from
  {
    hide HostBetween, TickAfter, HostTickAfter;
    HalfWindow(o, tick, route[from].tick);
    HalfWindow(o, route[from + 1].tick, tick);
    TickOrdersAgree(tick, route[from].tick);
    TickOrdersAgree(route[from + 1].tick, tick);
    if from < i {
      assert Since(o, route[from + 1].tick) <= Since(o, route[i].tick);
      SegmentScan(o, route, tick, i, from + 1);
    }
  }

  lemma {:induction false} NoSegment(o: u32, route: seq<Setpoint>, tick: u32, from: nat)
    requires Ordered(o, route) && Since(o, tick) < TWO_31
    requires |route| == 0 || Since(o, tick) < Since(o, route[0].tick) || Since(o, route[|route| - 1].tick) < Since(o,
        tick)
    ensures SegmentAt(route, tick, from).None?
    decreases |route| - from
  {
    hide HostBetween, TickAfter, HostTickAfter;
    if from + 1 < |route| {
      assert Since(o, route[0].tick) <= Since(o, route[from].tick);
      assert Since(o, route[from + 1].tick) <= Since(o, route[|route| - 1].tick);
      HalfWindow(o, tick, route[from].tick);
      HalfWindow(o, route[from + 1].tick, tick);
      TickOrdersAgree(tick, route[from].tick);
      TickOrdersAgree(route[from + 1].tick, tick);
      NoSegment(o, route, tick, from + 1);
    }
  }

  /** On the same ordered samples the host's interpolator and the firmware's
      give the same answer at every tick of the half-window, including none. */
  lemma InterpolatorsEqual(o: u32, samples: seq<Setpoint>, tick: u32)
    requires Ordered(o, samples) && Since(o, tick) < TWO_31
    ensures InterpolateRoute(samples, tick) == Interpolate(samples, tick)
  {
    hide SampleAt, SegmentAt, InterpolateFrom, HostBetween, LerpVec;
    InterpolateAnswers(o, samples, tick);
    if Interpolate(samples, tick).Some? {
      var i := CoverExists(o, samples, tick, |samples|);
      ScanFinds(o, samples, i, tick, 0);
      if samples[i].tick == tick {
        ExactScan(o, samples, tick, i, 0);
      } else {
        NotExact(o, samples, tick, i);
        NoExact(samples, tick, 0);
        SegmentScan(o, samples, tick, i, 0);
        BetweenAgrees(samples[i], samples[i + 1], tick);
      }
    } else {
      forall i | 0 <= i < |samples|
        ensures samples[i].tick != tick
      {
        assert Since(o, samples[0].tick) <= Since(o, samples[i].tick) <= Since(o, samples[|samples| - 1].tick);
      }
      NoExact(samples, tick, 0);
      NoSegment(o, samples, tick, 0);
    }
  }

  lemma NotExact(o: u32, samples: seq<Setpoint>, tick: u32, i: nat)
    requires Ordered(o, samples) && i + 1 < |samples|
    requires Since(o, samples[i].tick) < Since(o, tick) < Since(o, samples[i + 1].tick)
    ensures forall k :: 0 <= k < |samples| ==> samples[k].tick != tick
  {
    forall k | 0 <= k < |samples|
      ensures samples[k].tick != tick
    {
      if k <= i {
        assert Since(o, samples[k].tick) <= Since(o, samples[i].tick);
      } else {
        assert Since(o, samples[i + 1].tick) <= Since(o, samples[k].tick);
      }
    }
  }

  /** What the end of a queue answers, the whole queue answers too. */
  lemma SuffixAnswers(o: u32, samples: seq<Setpoint>, k: nat, tick: u32)
    requires Ordered(o, samples) && Since(o, tick) < TWO_31 && k <= |samples|
    requires Interpolate(samples[k..], tick).Some?
    ensures Interpolate(samples, tick) == Interpolate(samples[k..], tick)
  {
    hide InterpolateFrom, LerpVec;
    var rest := samples[k..];
    OrderedSlice(o, samples, k, |samples|);
    assert samples[k..|samples|] == rest;
    InterpolateAnswers(o, rest, tick);
    var i := CoverExists(o, rest, tick, |rest|);
    ScanFinds(o, rest, i, tick, 0);
    assert rest[i] == samples[k + i] && (i + 1 < |rest| ==> rest[i + 1] == samples[k + i + 1]);
    ScanFinds(o, samples, k + i, tick, 0);
  }

  /** The MCU's queue and the part of the host's route after `base`, at any
      linked state: wherever both interpolators answer they return the same
      vector. Where the MCU answers, the host's answer is the same one exactly
      when `tick` is not before the host's first future sample. */
  lemma InterpolatorsAgree(o: u32, clock: u32, u: Setup, caps: HardCaps, s: System, base: u32, tick: u32)
    requires Linked(o, clock, u, caps, s) && s.host.state == Active
    requires Since(o, s.beat) <= Since(o, base) < TWO_31 && Since(o, tick) < TWO_31
    ensures var host, mcu := InterpolateRoute(FutureRoute(s.host.route, base), tick),
                             Interpolate(s.ledger.exec.session.samples, tick);
            var future := FutureRoute(s.host.route, base);
            && (host.Some? && mcu.Some? ==> host == mcu)
            && (mcu.Some? ==> (host == mcu <==> future != [] && Since(o, future[0].tick) <= Since(o, tick)))
  {
    hide Refines, InterpolateFrom, InterpolateRoute, FutureRoute, InStep;
    var l := s.ledger;
    var queue := l.exec.session.samples;
    PlanOrdered(o, clock, l);
    QueueInPlan(o, clock, l);
    RouteFromPlan(o, clock, u.cfg, s.host, l, s.beat, base);
    BothFromPlan(o, l.plan, |l.applied|, queue, base, tick);
  }

  lemma QueueInPlan(o: u32, clock: u32, l: Ledger)
    requires Refines(o, clock, l)
    ensures |l.applied| <= |l.plan| && l.exec.session.samples == l.plan[|l.applied|..]
  {
    hide Sound, Ordered, Near;
  }

  lemma RouteFromPlan(o: u32, clock: u32, cfg: Config, h: Host, l: Ledger, beat: u32, base: u32)
    requires Refines(o, clock, l) && InStep(o, clock, cfg, h, l, beat)
    requires Since(o, beat) <= Since(o, base) < TWO_31
    ensures FutureRoute(h.route, base) == FutureRoute(l.plan, base)
  {
    hide Refines, FutureRoute;
    PlanOrdered(o, clock, l);
    FutureTwice(o, l.plan, beat, base);
  }

  /** Two ends of one ordered plan, cut at different places. */
  lemma BothFromPlan(o: u32, plan: seq<Setpoint>, k: nat, queue: seq<Setpoint>, base: u32, tick: u32)
    requires Ordered(o, plan) && k <= |plan| && queue == plan[k..]
    requires Since(o, base) < TWO_31 && Since(o, tick) < TWO_31
    ensures var future := FutureRoute(plan, base);
            var host, mcu := InterpolateRoute(future, tick), Interpolate(queue, tick);
            && (host.Some? && mcu.Some? ==> host == mcu)
            && (mcu.Some? ==> (host == mcu <==> future != [] && Since(o, future[0].tick) <= Since(o, tick)))
  {
    hide InterpolateFrom, InterpolateRoute, FutureRoute;
    var c := FutureIsCut(o, plan, base);
    var future := plan[c..];
    OrderedSlice(o, plan, c, |plan|);
    OrderedSlice(o, plan, k, |plan|);
    assert plan[c..|plan|] == future && plan[k..|plan|] == queue;
    InterpolatorsEqual(o, future, tick);
    InterpolateAnswers(o, future, tick);
    InterpolateAnswers(o, queue, tick);
    if Interpolate(queue, tick).Some? {
      SuffixAnswers(o, plan, k, tick);
      if future != [] {
        assert future[|future| - 1] == plan[|plan| - 1] == queue[|queue| - 1];
      }
    }
    if Interpolate(future, tick).Some? {
      SuffixAnswers(o, plan, c, tick);
    }
  }

  // ---- Splices the host builds ----

  /** The splice request behind `HostSpliceAt`. */
  function SpliceTick(h: Host, base: u32, offset: int): u32
    requires h.tail.Some?
  {
    HostTick(base, offset + SpliceShift(HostTick(base, offset), h.tail.value.tick))
  }

  function SpliceSamples(h: Host, points: seq<Point>, base: u32, offset: int): seq<Setpoint>
    requires h.tail.Some? && InterpolateRoute(FutureRoute(h.route, base), SpliceTick(h, base, offset)).Some?
  {
    var at := SpliceTick(h, base, offset);
    [Setpoint(at, InterpolateRoute(FutureRoute(h.route, base), at).value)]
    + Placed(points, base, SpliceShift(HostTick(base, offset), h.tail.value.tick))
  }

  /** An accepted splice went out as one request that the MCU acknowledged. */
  lemma SpliceWasSent(cfg: Config, limits: Limits, h: Host, l: Ledger, points: seq<Point>, offset: int, base: u32,
                      trip: Trip)
    requires h.tail.Some? && |points| > 0
    requires HostSpliceAt(cfg, limits, h, l, points, offset, base, trip).2 == Accepted
    ensures InterpolateRoute(FutureRoute(h.route, base), SpliceTick(h, base, offset)).Some?
    ensures var (after, ok) := SendBatch(l, trip, SpliceRequest(NextEpoch(h.epoch), SpliceTick(h, base, offset),
                                                                SpliceSamples(h, points, base, offset)), Splice);
            ok && after == HostSpliceAt(cfg, limits, h, l, points, offset, base, trip).1
  {
    hide SendBatch, PointsOk, InterpolateRoute, FutureRoute, HostTickAfter, SpliceRequest;
  }

  /** What the MCU's session makes of an admitted splice. */
  lemma SessionBehind(e: Executor, b: Batch, now: u32)
    requires 0 < |b.samples| <= WIRE_MAX_SAMPLES && ExecAdmitBatch(e, b, Splice, now).1 == Done
    ensures SpliceContinuity.Accepted(SessionAdmit(e.session, b, Splice, now).1)
    ensures ExecAdmitBatch(e, b, Splice, now).0.session == SessionAdmit(e.session, b, Splice, now).0
    ensures Interpolate(e.session.samples, b.spliceAtTick).Some?
  {
    hide BatchVerdict, Interpolate, BatchWithinLimits;
  }

  /** Two trajectories pass within one micro-radian of each other. */
  ghost predicate Seamless(before: seq<Setpoint>, after: seq<Setpoint>, t: u32) {
    && Interpolate(before, t).Some? && Interpolate(after, t).Some?
    && forall j :: 0 <= j < JOINT_COUNT ==>
         AbsDiff(Interpolate(after, t).value[j], Interpolate(before, t).value[j]) <= 1
  }

  /** A splice the host builds is seamless. When the MCU has accepted it, the
      host's continuity point is exactly the MCU's own interpolation of its
      queue on arrival, and the trajectory before the splice tick moves by at
      most one micro-radian on any joint. */
  lemma HostSplicesAreSeamless(o: u32, clock: u32, u: Setup, caps: HardCaps, s: System, points: seq<Point>, offset: int,
                               base: u32, trip: Trip)
    requires Linked(o, clock, u, caps, s) && s.host.state == Active && Prompt(o, clock, caps, base, trip)
    requires |points| > 0 && s.host.tail.Some?
    requires HostSpliceAt(u.cfg, u.limits, s.host, s.ledger, points, offset, base, trip).2 == Accepted
    ensures var at := SpliceTick(s.host, base, offset);
            var before := BookAll(s.ledger, trip.meanwhile).exec.session.samples;
            var after := HostSpliceAt(u.cfg, u.limits, s.host, s.ledger, points, offset, base,
                trip).1.exec.session.samples;
            && before != []
            && Interpolate(before, at).Some?
            && Interpolate(before, at) == InterpolateRoute(FutureRoute(s.host.route, base), at)
            && forall t: u32 :: Since(o, before[0].tick) <= Since(o, t) <= Since(o, at) ==> Seamless(before, after, t)
  {
    hide Refines, InterpolateFrom, InterpolateRoute, FutureRoute, InStep, SendBatch, ExecAdmitBatch, SessionAdmit,
         SpliceRequest, WireOrdered, WellDecoded, HostSpliceAt, TimelyRun;
    var h, l := s.host, s.ledger;
    var at := SpliceTick(h, base, offset);
    SpliceWasSent(u.cfg, u.limits, h, l, points, offset, base, trip);
    var samples := SpliceSamples(h, points, base, offset);
    var b := Request(0, NextEpoch(h.epoch), at, samples);
    RequestsAre(0, NextEpoch(h.epoch), at, samples);
    RefinesLater(o, clock, base, l);
    Delivered(o, base, l, trip, b, Splice);
    Meanwhile(o, base, l, trip);
    var mid := BookAll(l, trip.meanwhile);
    var before := mid.exec.session.samples;
    SessionBehind(mid.exec, b, trip.at);
    AdmittedAfter(o, base, mid, SendBatch(l, trip, SpliceRequest(NextEpoch(h.epoch), at, samples), Splice).0, b,
        Splice, trip);
    PlanOrdered(o, trip.at, mid);
    QueueInPlan(o, trip.at, mid);
    BeatBefore(o, clock, u.cfg, h, l, s.beat);
    RouteFromPlan(o, clock, u.cfg, h, l, s.beat, base);
    PlanOrdered(o, clock, l);
    BothFromPlan(o, mid.plan, |mid.applied|, before, base, at);
    InterpolateAnswers(o, before, at);
    var after := SessionAdmit(mid.exec.session, b, Splice, trip.at).0.samples;
    forall t: u32 | Since(o, before[0].tick) <= Since(o, t) <= Since(o, at)
      ensures Seamless(before, after, t)
    {
      forall j | 0 <= j < JOINT_COUNT
        ensures Interpolate(before, t).Some? && Interpolate(after, t).Some?
        ensures AbsDiff(Interpolate(after, t).value[j], Interpolate(before, t).value[j]) <= 1
      {
        SpliceContinuity.SpliceBound(mid.exec.session, b, trip.at, o, t, j);
      }
      assert Interpolate(before, t).Some? && Interpolate(after, t).Some? by {
        SpliceContinuity.SpliceBound(mid.exec.session, b, trip.at, o, t, 0);
      }
    }
  }

  lemma BeatBefore(o: u32, clock: u32, cfg: Config, h: Host, l: Ledger, beat: u32)
    requires InStep(o, clock, cfg, h, l, beat)
    ensures Since(o, beat) <= Since(o, clock)
  {
  }
}
