/** Where an accepted operation of the host puts its points: at which ticks, on
    which grid, under which policy; and which routes it validates. */
module HostPlacement {
  import opened Words
  import opened StreamContract
  import opened StreamSession
  import opened StreamExecutor
  import opened Timeline
  import opened PlanRefinement
  import opened WireCodec
  import opened HostHealth
  import opened HostAdapter
  import opened HostSimulation
  import opened HostRuns
  import opened HostGuarantees
  import opened HostAdmission
  import opened StartAdmission
  import opened ExecutorStory
  import opened AdmissionLaws

  // ---- Ticks ----

  /** Every point where it was asked for, `shift` ms later. */
  ghost predicate PutAt(points: seq<Point>, base: u32, shift: nat, samples: seq<Setpoint>) {
    && |samples| == |points|
    && forall i :: 0 <= i < |points| ==>
         samples[i].tick as int == (base + points[i].offset + shift) % TWO_32 && samples[i].pos == points[i].pos
  }

  /** `tick` is a whole number of control ticks from `grid`. */
  ghost predicate OnGridOf(tick: u32, grid: u32) {
    (tick - grid) % TWO_32 % 5 == 0
  }

  lemma PlacedIsPut(points: seq<Point>, base: u32, shift: nat)
    ensures PutAt(points, base, shift, Placed(points, base, shift))
  {
    forall i | 0 <= i < |points|
      ensures (base + (points[i].offset + shift)) % TWO_32 == (base + points[i].offset + shift) % TWO_32
    {
    }
  }

  lemma StepIsOnGrid(from: Setpoint, to: Setpoint, m: Vec)
    requires StepAllowed(from, to, m)
    ensures OnGridOf(to.tick, from.tick)
  {
  }

  /** An accepted append puts its points where it was asked to, all of them moved
      by the least delay, under one control tick, that brings the first one onto
      the grid of the stream's last sample; and extends the MCU's plan by exactly
      those samples. */
  lemma AppendPlaces(o: u32, clock: u32, u: Setup, caps: HardCaps, s: System, a: Action)
    requires Linked(o, clock, u, caps, s) && ActionTimely(o, clock, caps, a) && a.AppendAction?
    requires AnswerOf(u, s, a) == Accepted
    ensures a.beat.Some? && s.host.tail.Some? && |a.points| > 0
    ensures var next := Perform(u, s, a);
            exists shift: nat, samples: seq<Setpoint> ::
              && PutAt(a.points, a.beat.value, shift, samples) && shift < 5
              && next.ledger.plan == s.ledger.plan + samples && next.host.tail == Some(samples[|samples| - 1])
              && OnGridOf(samples[0].tick, s.host.tail.value.tick)
    ensures Perform(u, s, a).host.epoch == s.host.epoch && Perform(u, s, a).host.pending == s.host.pending
  {
    hide Refines, InStep, SendBatch, Prompt, FutureRoute, AppendRequest, PointsOk, HostTick, HostTickAfter, Distance,
         PutAt, OnGridOf, StepAllowed, SentPolicy, Wellmade, Placed, Received, AppendShift, AppendPasses;
    HostAppendsAreAccepted(o, clock, u, caps, s, a.owner, a.points, a.beat, a.trip);
    AppendPassing(o, u, s, a);
    ActiveOwned(o, clock, u, caps, s);
    var base, tail := a.beat.value, s.host.tail.value;
    var shift := AppendShift(HostTick(base, a.points[0].offset), tail.tick);
    var samples := AppendSamples(a.points, base, tail);
    var mid := BookAll(s.ledger, a.trip.meanwhile).exec;
    AppendInStep(o, clock, u.cfg, s.host, s.ledger, s.beat, base, a.trip, samples, Perform(u, s, a).host);
    OnArrival(o, clock, u, caps, s, base, a.trip);
    BaseInWindow(o, clock, u, caps, mid.session.policy, base, a.trip);
    AppendIsWellmade(o, base, u.cfg, u.limits, mid.session.policy, a.points, tail);
    StepIsOnGrid(tail, samples[0], mid.session.policy.maximumStep);
    PlacedIsPut(a.points, base, shift);
    assert PutAt(a.points, base, shift, samples);
  }

  lemma AppendPassing(o: u32, u: Setup, s: System, a: Action)
    requires a.AppendAction? && AppendPasses(o, u, s, a.owner, a.points, a.beat, a.trip)
    ensures s.host.state == Active && a.beat.Some? && s.host.tail.Some? && |a.points| > 0 && Claims(s.host, a.owner)
    ensures AppendChecked(u.cfg, u.limits, a.points, a.beat.value, s.host.tail.value)
    ensures BookAll(s.ledger, a.trip.meanwhile).exec.diag.state in {Priming, Running}
  {
  }

  lemma ActiveOwned(o: u32, clock: u32, u: Setup, caps: HardCaps, s: System)
    requires Linked(o, clock, u, caps, s) && s.host.state == Active
    ensures s.host.owner.Some? && InStep(o, clock, u.cfg, s.host, s.ledger, s.beat)
  {
    hide InStep, Refines;
  }

  // ---- Splices ----

  /** What a splice makes of the plan: everything before the splice tick, the
      point the trajectory has reached there, and the new points. */
  ghost predicate SplicedAt(o: u32, points: seq<Point>, base: u32, offset: int, shift: nat, queue: seq<Setpoint>,
                            before: seq<Setpoint>, after: seq<Setpoint>, cut: u32, at: Vec)
  {
    && shift < 5 && cut as int == (base + offset + shift) % TWO_32 && OnTrajectory(o, queue, cut, at)
    && exists samples: seq<Setpoint> ::
         PutAt(points, base, shift, samples) && after == Before(before, cut) + ([Setpoint(cut, at)] + samples)
  }

  /** An accepted splice cuts the plan at the tick it was asked for, moved by the
      least delay, under one control tick, onto the grid of the stream's last
      sample; there it takes up the MCU's own trajectory, and goes on with its
      points moved by the same delay, under the next epoch. */
  lemma SplicePlaces(o: u32, clock: u32, u: Setup, caps: HardCaps, s: System, a: Action)
    requires Linked(o, clock, u, caps, s) && ActionTimely(o, clock, caps, a) && a.SpliceAction?
    requires AnswerOf(u, s, a) == Accepted
    ensures a.beat.Some? && s.host.tail.Some?
    ensures var next := Perform(u, s, a);
            var queue := BookAll(s.ledger, a.trip.meanwhile).exec.session.samples;
            && next.host.epoch == NextEpoch(s.host.epoch)
            && exists shift: nat, cut: u32, at: Vec ::
                 && SplicedAt(o, a.points, a.beat.value, a.offset, shift, queue, s.ledger.plan, next.ledger.plan,
                      cut, at)
                 && OnGridOf(s.host.tail.value.tick, cut)
  {
    hide Refines, InStep, SendBatch, Prompt, FutureRoute, SpliceRequest, PointsOk, HostTick, HostTickAfter, Distance,
         PutAt, OnGridOf, InterpolateRoute, Placed, Received, SpliceShift, SplicePasses, Interpolate, Seamless, Before,
         OnTrajectory, SplicedAt, SpliceSamples, SpliceTick;
    HostSplicesAreAccepted(o, clock, u, caps, s, a.owner, a.points, a.offset, a.beat, a.trip);
    SplicePassing(o, u, s, a);
    ActiveOwned(o, clock, u, caps, s);
    var base := a.beat.value;
    var cut := SpliceTick(s.host, base, a.offset);
    SpliceWasSent(u.cfg, u.limits, s.host, s.ledger, a.points, a.offset, base, a.trip);
    HostSplicesAreSeamless(o, clock, u, caps, s, a.points, a.offset, base, a.trip);
    var samples := SpliceSamples(s.host, a.points, base, a.offset);
    SampledFrom(s.host, a.points, base, a.offset);
    SpliceInStep(o, clock, u.cfg, s.host, s.ledger, s.beat, base, a.trip, cut, NextEpoch(s.host.epoch), samples,
                 Perform(u, s, a).host);
    SpliceOnGrid(s.host, base, a.offset);
    GridIs(s.host.tail.value.tick, cut);
    CutInWindow(o, clock, u, caps, s, a);
    var queue := BookAll(s.ledger, a.trip.meanwhile).exec.session.samples;
    SplicedIs(o, a.points, base, a.offset, SpliceShift(HostTick(base, a.offset), s.host.tail.value.tick), queue,
              s.ledger.plan, Perform(u, s, a).ledger.plan, cut, Interpolate(queue, cut).value);
  }

  /** The splice tick and the MCU's queue lie in the window of the run. */
  lemma CutInWindow(o: u32, clock: u32, u: Setup, caps: HardCaps, s: System, a: Action)
    requires Linked(o, clock, u, caps, s) && ActionTimely(o, clock, caps, a) && a.SpliceAction?
    requires SplicePasses(o, u, s, a.owner, a.points, a.offset, a.beat, a.trip)
    ensures a.beat.Some? && s.host.tail.Some? && Since(o, SpliceTick(s.host, a.beat.value, a.offset)) < TWO_31
    ensures Ordered(o, BookAll(s.ledger, a.trip.meanwhile).exec.session.samples)
  {
    hide Linked, Prompt, SpliceTick, Wellmade, InterpolateRoute, FutureRoute, SpliceChecked, Ordered, TripTimely;
    var base, mid := a.beat.value, BookAll(s.ledger, a.trip.meanwhile).exec;
    OnArrival(o, clock, u, caps, s, base, a.trip);
    BaseInWindow(o, clock, u, caps, mid.session.policy, base, a.trip);
    SpliceIsWellmade(o, base, u.cfg, u.limits, mid.session.policy, s.host, a.points, a.offset);
  }

  lemma SplicePassing(o: u32, u: Setup, s: System, a: Action)
    requires a.SpliceAction? && SplicePasses(o, u, s, a.owner, a.points, a.offset, a.beat, a.trip)
    ensures s.host.state == Active && a.beat.Some? && s.host.tail.Some? && |a.points| > 0 && Claims(s.host, a.owner)
    ensures BookAll(s.ledger, a.trip.meanwhile).exec.diag.state in {Priming, Running}
    ensures Since(o, SpliceTick(s.host, a.beat.value, a.offset)) >= Since(o, a.trip.at)
  {
    hide SpliceChecked, HostTick;
  }

  lemma SampledFrom(h: Host, points: seq<Point>, base: u32, offset: int)
    requires h.tail.Some? && InterpolateRoute(FutureRoute(h.route, base), SpliceTick(h, base, offset)).Some?
    ensures var samples, cut := SpliceSamples(h, points, base, offset), SpliceTick(h, base, offset);
            var shift := SpliceShift(HostTick(base, offset), h.tail.value.tick);
            && samples != [] && samples[0].tick == cut && cut == HostTick(base, offset + shift)
            && samples == [Setpoint(cut, InterpolateRoute(FutureRoute(h.route, base), cut).value)]
                          + Placed(points, base, shift)
  {
    hide InterpolateRoute, FutureRoute, HostTick, Placed;
  }

  lemma GridIs(tick: u32, grid: u32)
    requires Sub32(tick, grid) % CONTROL_TICK_MS == 0
    ensures OnGridOf(tick, grid)
  {
  }

  /** The shape of the spliced plan. */
  lemma SplicedIs(o: u32, points: seq<Point>, base: u32, offset: int, shift: nat, queue: seq<Setpoint>,
                  before: seq<Setpoint>, after: seq<Setpoint>, cut: u32, at: Vec)
    requires shift < 5 && cut == HostTick(base, offset + shift)
    requires Ordered(o, queue) && Since(o, cut) < TWO_31 && Interpolate(queue, cut) == Some(at)
    requires after == Before(before, cut) + ([Setpoint(cut, at)] + Placed(points, base, shift))
    ensures SplicedAt(o, points, base, offset, shift, queue, before, after, cut, at)
  {
    hide PutAt, Placed, Interpolate, Before, OnTrajectory;
    PlacedIsPut(points, base, shift);
    InterpolateIsTrajectory(o, queue, cut, at);
  }

  lemma TickIs(base: u32, offset: int)
    ensures HostTick(base, offset) as int == (base + offset) % TWO_32
  {
  }

  // ---- Starts ----

  /** The policy the MCU runs a stream of the host's under: both arms, the
      configured leads, steps and lateness, the timeout of its kind, and a
      tracking limit of their own for the grippers, joints 5 and 11. */
  ghost predicate Agreed(cfg: Config, horizon: u32, policy: Policy) {
    && policy.minimumStartSamples as int == cfg.minimumStartSamples && policy.armMask == 3
    && policy.minimumLeadMs as int == cfg.minimumLeadMs && policy.maximumLeadMs as int == cfg.maximumLeadMs
    && policy.horizonEndTick == horizon
    && policy.commandTimeoutMs as int == (if horizon == 0 then cfg.openTimeoutMs else cfg.finiteTimeoutMs)
    && policy.maximumApplyLatenessMs as int == cfg.maximumApplyLatenessMs
    && forall j :: 0 <= j < JOINT_COUNT ==>
         && policy.maximumStep[j] as int == cfg.maximumStep
         && policy.trackingErrorLimit[j] as int
              == (if j in {5, 11} then cfg.gripperTrackingLimit else cfg.trackingLimit)
  }

  lemma SentIsAgreed(cfg: Config, horizon: u32, policy: Policy)
    requires AsHostPolicy(policy) == PolicyRequest(cfg, horizon)
    ensures Agreed(cfg, horizon, policy)
  {
    var mine, sent := AsHostPolicy(policy), PolicyRequest(cfg, horizon);
    assert mine.maximumStep == sent.maximumStep && mine.trackingErrorLimit == sent.trackingErrorLimit;
    forall j | 0 <= j < JOINT_COUNT
      ensures policy.maximumStep[j] as int == cfg.maximumStep
      ensures policy.trackingErrorLimit[j] as int
           == (if j in {5, 11} then cfg.gripperTrackingLimit else cfg.trackingLimit)
    {
      assert mine.maximumStep[j] == sent.maximumStep[j] && mine.trackingErrorLimit[j] == sent.trackingErrorLimit[j];
    }
  }

  /** As long as a host is active, the MCU keeps to what the host configured. */
  lemma PolicyHolds(o: u32, clock: u32, u: Setup, caps: HardCaps, s: System)
    requires Linked(o, clock, u, caps, s) && s.host.state == Active
    ensures var session := s.ledger.exec.session;
            && Agreed(u.cfg, HorizonOf(s.host), session.policy) && session.open
            && session.horizonEndTick == HorizonOf(s.host) && session.arbiterEpoch == s.host.epoch
  {
    hide Refines, FutureRoute, PolicyRequest, AsHostPolicy, Agreed;
    SentIsAgreed(u.cfg, HorizonOf(s.host), s.ledger.exec.session.policy);
  }

  /** How many points of a start go at once: all of a rolling one; of a finite
      plan those inside the lead window, but no more than nine. */
  ghost predicate SentAtOnce(cfg: Config, finite: bool, points: seq<Point>, n: nat) {
    && n <= |points|
    && (!finite ==> n == |points|)
    && (finite ==>
          && n <= 9
          && (forall i :: 0 <= i < n ==> points[i].offset <= cfg.maximumLeadMs)
          && (n == 9 || forall i :: n <= i < |points| ==> points[i].offset > cfg.maximumLeadMs))
  }

  /** An accepted start puts every point exactly where it was asked for; what
      goes at once is the MCU's whole plan, and the rest is kept for later. A
      finite plan ends at its last point; a rolling stream has no end. */
  lemma StartPlaces(o: u32, clock: u32, u: Setup, caps: HardCaps, s: System, a: Action)
    requires Linked(o, clock, u, caps, s) && ActionTimely(o, clock, caps, a) && a.StartAction?
    requires AnswerOf(u, s, a) == Accepted
    ensures a.beat.Some? && |a.points| > 0
    ensures var next := Perform(u, s, a);
            && PutAt(a.points, a.beat.value, 0, next.ledger.plan + next.host.pending)
            && SentAtOnce(u.cfg, a.finite, a.points, |next.ledger.plan|)
            && next.host.state == Active && next.host.armed && next.host.owner == Some(a.owner)
            && next.host.epoch == NextEpoch(s.host.epoch)
            && next.host.prepared == (if s.host.armed then s.host.prepared else a.anchor)
            && next.host.horizon == (if a.finite
                                     then Some((a.beat.value + a.points[|a.points| - 1].offset) % TWO_32) else None)
  {
    hide Refines, InStep, HostOpen, TripTimely, FinitePlanOk, PointsOk, HostTick, Placed, StartPasses, StartChecked,
         InitialCount, PutAt, SentAtOnce;
    HostStartsAreAccepted(o, clock, u, caps, s, a);
    StartPassing(o, u, caps, s, a);
    StartOpens(u, s, a);
    var base, h2, n := a.beat.value, Launched(s.host, a), FirstCount(u, s.host, a);
    var first, later := Placed(a.points[..n], base, 0), Placed(a.points[n..], base, 0);
    OpenInStep(o, clock, u.cfg, h2, s.ledger, first, later, a.finite, base, a.opening, a.trip);
    StartIsOpen(u, s, a);
    OpenKeepsArmed(u.cfg, h2, s.ledger, first, later, a.finite, a.opening, a.trip);
    PlacedSplits(a.points, n, base);
    PlacedIsPut(a.points, base, 0);
    CountIs(u, s.host, a);
    LaunchedIs(u, s.host, a);
    LastTick(a.points, base);
  }

  lemma LaunchedIs(u: Setup, h: Host, a: Action)
    requires a.StartAction? && StartChecked(u, h, a) && Claim(StartAdmission.Anchored(h, a), a.owner).Some?
    ensures var next := Launched(h, a);
            && next.armed && next.owner == Some(a.owner) && next.epoch == NextEpoch(h.epoch)
            && next.prepared == (if h.armed then h.prepared else a.anchor)
  {
    hide FirstRoute, NextEpoch;
  }

  lemma StartPassing(o: u32, u: Setup, caps: HardCaps, s: System, a: Action)
    requires a.StartAction? && StartPasses(o, u, caps, s, a)
    ensures StartChecked(u, s.host, a) && a.beat.Some? && |a.points| > 0
    ensures Claim(StartAdmission.Anchored(s.host, a), a.owner).Some?
  {
  }

  /** A start that passes its checks leaves what opening the stream leaves. */
  lemma StartIsOpen(u: Setup, s: System, a: Action)
    requires a.StartAction? && StartChecked(u, s.host, a)
    requires a.beat.Some? && Claim(StartAdmission.Anchored(s.host, a), a.owner).Some?
    ensures var n := FirstCount(u, s.host, a);
            var r := HostOpen(u.cfg, Launched(s.host, a), s.ledger, Placed(a.points[..n], a.beat.value, 0),
                              Placed(a.points[n..], a.beat.value, 0), a.finite, a.opening, a.trip);
            Perform(u, s, a).host == r.0 && Perform(u, s, a).ledger == r.1
  {
    hide HostOpen, FirstRoute, Placed;
  }

  lemma OpenKeepsArmed(cfg: Config, h: Host, l: Ledger, first: seq<Setpoint>, later: seq<Setpoint>, finite: bool,
                       opening: Trip, trip: Trip)
    ensures HostOpen(cfg, h, l, first, later, finite, opening, trip).2 == Accepted ==>
              var after := HostOpen(cfg, h, l, first, later, finite, opening, trip).0;
              && after.armed == h.armed && after.owner == h.owner && after.epoch == h.epoch
              && after.prepared == h.prepared && (!finite ==> after.horizon == None)
  {
    hide SendOpen, SendBatch, PolicyRequest, AppendRequest;
  }

  lemma CountIs(u: Setup, h: Host, a: Action)
    requires a.StartAction? && StartChecked(u, h, a) && |a.points| > 0
    ensures SentAtOnce(u.cfg, a.finite, a.points, FirstCount(u, h, a)) && Launched(h, a).armed
  {
    hide PointsOk, FinitePointOk, InsideLead;
    var anchor := StartAdmission.Anchored(h, a).prepared.value;
    if a.finite {
      forall i, j | 0 <= i < j < |a.points|
        ensures a.points[i].offset < a.points[j].offset
      {
        FiniteOffsetsGrow(u.cfg, u.limits, a.points, anchor, i, j);
      }
      InsideLeadIsPrefix(u.cfg, a.points);
    }
  }

  lemma LastTick(points: seq<Point>, base: u32)
    requires |points| > 0
    ensures var all := Placed(points, base, 0);
            all[|all| - 1].tick as int == (base + points[|points| - 1].offset) % TWO_32
  {
  }

  // ---- Routes ----

  /** `to` is within the configured step of `from` for every whole control tick
      of `gap`. */
  ghost predicate MovesWithin(cfg: Config, from: Vec, to: Vec, gap: int) {
    forall j :: 0 <= j < JOINT_COUNT ==>
      -(cfg.maximumStep * (gap / 5)) <= to[j] - from[j] <= cfg.maximumStep * (gap / 5)
  }

  ghost predicate GapOk(cfg: Config, from: Point, to: Point) {
    var gap := to.offset - from.offset;
    0 < gap && gap % 5 == 0 && MovesWithin(cfg, from.pos, to.pos, gap)
  }

  /** A route for one batch, after `reference` by `firstSpan` ms: one to nine
      points inside the lead window and the limits, whole control ticks apart, no
      step too wide. */
  ghost predicate Route(cfg: Config, limits: Limits, points: seq<Point>, reference: Option<Vec>, firstSpan: int) {
    && 1 <= |points| <= 9 && 0 < firstSpan && firstSpan % 5 == 0
    && (reference.Some? ==> MovesWithin(cfg, reference.value, points[0].pos, firstSpan))
    && (forall i :: 0 <= i < |points| ==>
          0 < points[i].offset <= cfg.maximumLeadMs && WithinLimits(limits, points[i].pos))
    && forall i :: 0 < i < |points| ==> GapOk(cfg, points[i - 1], points[i])
  }

  lemma MovesIs(cfg: Config, from: Vec, to: Vec, gap: int)
    ensures MovesWithin(cfg, from, to, gap) <==> StepFits(cfg, from, to, gap)
  {
    forall j | 0 <= j < JOINT_COUNT
      ensures -(cfg.maximumStep * (gap / 5)) <= to[j] - from[j] <= cfg.maximumStep * (gap / 5)
         <==> AbsDiff(to[j], from[j]) <= cfg.maximumStep * (gap / CONTROL_TICK_MS)
    {
    }
  }

  /** The host validates exactly the routes that are such routes. */
  lemma RoutesAreValidated(cfg: Config, limits: Limits, points: seq<Point>, reference: Option<Vec>, firstSpan: int)
    ensures PointsOk(cfg, limits, points, reference, firstSpan) <==> Route(cfg, limits, points, reference, firstSpan)
  {
    hide StepFits, MovesWithin, WithinLimits;
    if 1 <= |points| {
      if reference.Some? {
        MovesIs(cfg, reference.value, points[0].pos, firstSpan);
      }
      forall i | 0 <= i < |points|
        ensures PointOk(cfg, limits, points, reference, firstSpan, i) <==>
                  && 0 < points[i].offset <= cfg.maximumLeadMs && WithinLimits(limits, points[i].pos)
                  && if i == 0 then
                       0 < firstSpan && firstSpan % 5 == 0
                       && (reference.Some? ==> MovesWithin(cfg, reference.value, points[0].pos, firstSpan))
                     else GapOk(cfg, points[i - 1], points[i])
      {
        if 0 < i {
          MovesIs(cfg, points[i - 1].pos, points[i].pos, points[i].offset - points[i - 1].offset);
        }
      }
      if PointsOk(cfg, limits, points, reference, firstSpan) {
        assert PointOk(cfg, limits, points, reference, firstSpan, 0);
        forall i | 0 <= i < |points|
          ensures 0 < points[i].offset <= cfg.maximumLeadMs && WithinLimits(limits, points[i].pos)
          ensures 0 < i ==> GapOk(cfg, points[i - 1], points[i])
        {
          assert PointOk(cfg, limits, points, reference, firstSpan, i);
        }
      }
      if Route(cfg, limits, points, reference, firstSpan) {
        forall i | 0 <= i < |points|
          ensures PointOk(cfg, limits, points, reference, firstSpan, i)
        {
          assert 0 < i ==> GapOk(cfg, points[i - 1], points[i]);
        }
      }
    }
  }

  /** A finite plan from the pose the arms are in: as many points as a start
      needs, the first no earlier than the minimum lead, all inside the limits,
      on control ticks, in order, no step too wide. */
  ghost predicate WholePlan(cfg: Config, limits: Limits, points: seq<Point>, anchor: Vec) {
    && |points| > 0 && |points| >= cfg.minimumStartSamples
    && cfg.minimumLeadMs <= points[0].offset && 0 < points[0].offset
    && MovesWithin(cfg, anchor, points[0].pos, points[0].offset)
    && (forall i :: 0 <= i < |points| ==> points[i].offset % 5 == 0 && WithinLimits(limits, points[i].pos))
    && forall i :: 0 < i < |points| ==> GapOk(cfg, points[i - 1], points[i])
  }

  lemma PlansAreValidated(cfg: Config, limits: Limits, points: seq<Point>, anchor: Vec)
    ensures FinitePlanOk(cfg, limits, points, anchor) <==> WholePlan(cfg, limits, points, anchor)
  {
    hide StepFits, MovesWithin, WithinLimits;
    if |points| > 0 {
      MovesIs(cfg, anchor, points[0].pos, points[0].offset);
      forall i | 0 < i < |points|
        ensures FinitePointOk(cfg, limits, points, anchor, i) <==>
                  && 0 < points[i].offset - points[i - 1].offset && points[i].offset % 5 == 0
                  && WithinLimits(limits, points[i].pos)
                  && MovesWithin(cfg, points[i - 1].pos, points[i].pos, points[i].offset - points[i - 1].offset)
      {
        MovesIs(cfg, points[i - 1].pos, points[i].pos, points[i].offset - points[i - 1].offset);
      }
      if FinitePlanOk(cfg, limits, points, anchor) {
        assert FinitePointOk(cfg, limits, points, anchor, 0);
        forall i | 0 <= i < |points|
          ensures points[i].offset % 5 == 0 && WithinLimits(limits, points[i].pos)
          ensures 0 < i ==> GapOk(cfg, points[i - 1], points[i])
        {
          assert FinitePointOk(cfg, limits, points, anchor, i);
          assert 0 < i ==> FinitePointOk(cfg, limits, points, anchor, i - 1);
        }
      }
    }
  }

  /** The checks of a start, in plain terms: an adapter that is allowed to, is
      ready and has been prepared; on the first arming nobody's yet, with the
      pose read again and the torque on; somebody with a name, the owner if there
      is one; a heartbeat; and a route or a plan from the pose. */
  lemma StartChecks(u: Setup, h: Host, a: Action)
    requires a.StartAction?
    ensures StartChecked(u, h, a) <==>
              && u.authorized && h.state == Ready && h.prepared.Some? && a.beat.Some? && a.owner != ""
              && (h.armed ==> h.owner.None? || h.owner.value == a.owner)
              && (!h.armed ==> h.owner.None? && a.anchor.Some? && a.enabled)
              && var from := if h.armed then h.prepared.value else a.anchor.value;
                 if a.finite then
                   WholePlan(u.cfg, u.limits, a.points, from)
                   && InitialCount(u.cfg, a.points) >= u.cfg.minimumStartSamples
                 else
                   && |a.points| > 0 && |a.points| >= u.cfg.minimumStartSamples
                   && a.points[0].offset >= u.cfg.minimumLeadMs
                   && Route(u.cfg, u.limits, a.points, Some(from), a.points[0].offset)
  {
    hide PointsOk, FinitePlanOk, WholePlan, Route, InitialCount;
    if h.armed && h.prepared.Some? {
      PlansAreValidated(u.cfg, u.limits, a.points, h.prepared.value);
      if |a.points| > 0 {
        RoutesAreValidated(u.cfg, u.limits, a.points, h.prepared, a.points[0].offset);
      }
    } else if !h.armed && a.anchor.Some? {
      PlansAreValidated(u.cfg, u.limits, a.points, a.anchor.value);
      if |a.points| > 0 {
        RoutesAreValidated(u.cfg, u.limits, a.points, a.anchor, a.points[0].offset);
      }
    }
  }

  // ---- Refusals ----

  /** Somebody with a name, and the owner if there is one. */
  ghost predicate Heard(h: Host, owner: string) {
    owner != "" && (h.owner.None? || h.owner.value == owner)
  }

  /** What a splice is asked for: on control ticks, no earlier than the minimum
      lead, one to eight points after it, each step allowed. */
  ghost predicate SpliceAsked(cfg: Config, limits: Limits, points: seq<Point>, offset: int) {
    && offset % 5 == 0 && cfg.minimumLeadMs <= offset && 1 <= |points| <= 8 && offset < points[0].offset
    && Route(cfg, limits, points, None, points[0].offset - offset)
  }

  /** What is refused, before the MCU is asked anything: a caller who is not
      heard, an adapter that is not in the state for it, arguments that can never
      be right. Whatever else goes wrong is a fault. */
  lemma RefusedWhen(u: Setup, s: System, a: Action)
    ensures var h, refused := s.host, AnswerOf(u, s, a) == Refused;
            match a
            case AppendAction(owner, _, _, _) => refused <==> !Heard(h, owner) || h.state != Active || h.tail.None?
            case SpliceAction(owner, points, offset, _, _) =>
              refused <==> !Heard(h, owner) || h.state != Active || h.tail.None?
                           || !SpliceAsked(u.cfg, u.limits, points, offset)
            case PollAction(owner, _, _, _) => refused <==> !Heard(h, owner) || h.state != Active
            case StopAction(owner, _) => refused <==> !Heard(h, owner)
            case PrepareAction(_) => refused <==> h.state != New
            case StartAction(owner, _, _, _, _, _, _, _) =>
              refused <==>
                || !u.authorized || h.state != Ready || h.prepared.None? || (!h.armed && h.owner.Some?)
                || ((h.armed || a.anchor.Some?) && (!Heard(h, owner) || !RouteAsked(u, h, a)))
            case McuAction(_) => !refused
  {
    hide HostAppendAt, HostSpliceAt, HostPump, HostCheck, HostOpen, Route, WholePlan, PointsOk, FinitePlanOk,
         InitialCount;
    match a
    case SpliceAction(owner, points, offset, _, _) =>
      if |points| > 0 {
        RoutesAreValidated(u.cfg, u.limits, points, None, points[0].offset - offset);
      }
      SpliceIsTried(u, s.host, s.ledger, a);
    case AppendAction(_, _, _, _) => AppendIsTried(u, s.host, s.ledger, a);
    case PollAction(_, _, _, _) => PollIsTried(u, s.host, s.ledger, a);
    case StartAction(_, _, _, _, _, _, _, _) =>
      if s.host.armed && s.host.prepared.Some? {
        StartRoute(u, a, s.host.prepared.value);
      } else if !s.host.armed && a.anchor.Some? {
        StartRoute(u, a, a.anchor.value);
      }
      OpenIsTried(u, s, a);
    case _ =>
  }

  /** The route or plan of a start, from the pose the arms are in. */
  ghost predicate RouteAsked(u: Setup, h: Host, a: Action)
    requires a.StartAction? && (h.armed ==> h.prepared.Some?) && (!h.armed ==> a.anchor.Some?)
  {
    var from := if h.armed then h.prepared.value else a.anchor.value;
    if a.finite then
      WholePlan(u.cfg, u.limits, a.points, from) && InitialCount(u.cfg, a.points) >= u.cfg.minimumStartSamples
    else
      && |a.points| > 0 && |a.points| >= u.cfg.minimumStartSamples && a.points[0].offset >= u.cfg.minimumLeadMs
      && Route(u.cfg, u.limits, a.points, Some(from), a.points[0].offset)
  }

  lemma StartRoute(u: Setup, a: Action, from: Vec)
    requires a.StartAction?
    ensures FirstRoute(u.cfg, u.limits, a.points, a.finite, from).Some? <==>
              if a.finite then
                WholePlan(u.cfg, u.limits, a.points, from) && InitialCount(u.cfg, a.points) >= u.cfg.minimumStartSamples
              else
                && |a.points| > 0 && |a.points| >= u.cfg.minimumStartSamples
                && a.points[0].offset >= u.cfg.minimumLeadMs
                && Route(u.cfg, u.limits, a.points, Some(from), a.points[0].offset)
  {
    hide PointsOk, FinitePlanOk, WholePlan, Route, InitialCount;
    PlansAreValidated(u.cfg, u.limits, a.points, from);
    if |a.points| > 0 {
      RoutesAreValidated(u.cfg, u.limits, a.points, Some(from), a.points[0].offset);
    }
  }

  lemma AppendIsTried(u: Setup, h: Host, l: Ledger, a: Action)
    requires a.AppendAction?
    ensures h.tail.Some? && a.beat.Some? ==>
              HostAppendAt(u.cfg, u.limits, h, l, a.points, a.beat.value, a.trip).2 != Refused
    ensures forall h': Host :: h'.tail.Some? && a.beat.Some? ==>
              HostAppendAt(u.cfg, u.limits, h', l, a.points, a.beat.value, a.trip).2 != Refused
  {
    hide SendBatch, PointsOk, HostTick, HostTickAfter, Distance, AppendRequest, FutureRoute, Placed;
  }

  lemma SpliceIsTried(u: Setup, h: Host, l: Ledger, a: Action)
    requires a.SpliceAction?
    ensures forall h': Host :: h'.tail.Some? && a.beat.Some? && |a.points| > 0 ==>
              HostSpliceAt(u.cfg, u.limits, h', l, a.points, a.offset, a.beat.value, a.trip).2 != Refused
  {
    hide SendBatch, PointsOk, HostTick, HostTickAfter, SpliceRequest, FutureRoute, InterpolateRoute, RetainedRoute,
         Placed;
  }

  lemma PollIsTried(u: Setup, h: Host, l: Ledger, a: Action)
    requires a.PollAction?
    ensures forall h': Host :: HostPump(u.cfg, h', l, a.beat, a.trip).2 != Refused
    ensures forall h': Host, e: Executor :: HostCheck(u.cfg, h', e, a.replies).1 != Refused
  {
    hide SendBatch, HostTickAfter, Distance, FutureRoute, AppendRequest, ReadyCount, AllWell, MeasuredPose, Busy,
         HostAdapter.Settled;
  }

  lemma OpenIsTried(u: Setup, s: System, a: Action)
    requires a.StartAction?
    ensures forall h': Host, l: Ledger, first, later ::
              HostOpen(u.cfg, h', l, first, later, a.finite, a.opening, a.trip).2 != Refused
  {
    hide SendOpen, SendBatch, PolicyRequest, AppendRequest;
  }
}
