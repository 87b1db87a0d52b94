/** The start of a stream: what the host validates of a whole finite plan, what
    it sends of it at once, and exactly when the start is accepted. */
module StartAdmission {
  import opened Words
  import opened StreamContract
  import opened StreamSession
  import opened StreamExecutor
  import opened ExecutorRuns
  import opened Timeline
  import opened PlanRefinement
  import opened HostAdapter
  import opened HostSimulation
  import opened HostRuns
  import opened HostAdmission

  // ---- The plan ----

  /** A validated finite plan on the clock: in order, inside limits, whole
      control ticks apart and within the step limit. */
  ghost predicate GoodPlan(o: u32, cfg: Config, limits: Limits, full: seq<Setpoint>) {
    && full != [] && Ordered(o, full) && BatchWithinLimits(limits, full)
    && forall i :: 0 < i < |full| ==> PlanStep(o, cfg, full[i - 1], full[i])
  }

  ghost predicate PlanStep(o: u32, cfg: Config, from: Setpoint, to: Setpoint) {
    var span := Since(o, to.tick) - Since(o, from.tick);
    0 < span && span % CONTROL_TICK_MS == 0 && StepFits(cfg, from.pos, to.pos, span)
  }

  lemma {:induction false} FiniteOffsetsGrow(cfg: Config, limits: Limits, points: seq<Point>, anchor: Vec, i: nat,
                                          j: nat)
    requires FinitePlanOk(cfg, limits, points, anchor) && i <= j < |points|
    ensures points[i].offset <= points[j].offset && (i < j ==> points[i].offset < points[j].offset)
    decreases j - i
  {
    hide StepFits, WithinLimits;
    if i < j {
      assert FinitePointOk(cfg, limits, points, anchor, j);
      FiniteOffsetsGrow(cfg, limits, points, anchor, i, j - 1);
    }
  }

  /** What the host's validation of a whole plan gives. */
  lemma FinitePlanIsGood(o: u32, base: u32, cfg: Config, limits: Limits, points: seq<Point>, anchor: Vec)
    requires FinitePlanOk(cfg, limits, points, anchor)
    requires Since(o, base) + points[|points| - 1].offset < TWO_31
    ensures GoodPlan(o, cfg, limits, Placed(points, base, 0))
  {
    hide StepFits, WithinLimits, HostTick;
    var full := Placed(points, base, 0);
    forall i | 0 <= i < |full|
      ensures Since(o, full[i].tick) == Since(o, base) + points[i].offset && WithinLimits(limits, full[i].pos)
      ensures 0 < points[i].offset && points[i].offset % CONTROL_TICK_MS == 0
    {
      assert FinitePointOk(cfg, limits, points, anchor, i);
      assert FinitePointOk(cfg, limits, points, anchor, 0);
      FiniteOffsetsGrow(cfg, limits, points, anchor, 0, i);
      FiniteOffsetsGrow(cfg, limits, points, anchor, i, |points| - 1);
      TickPlaced(o, base, points[i].offset);
    }
    forall i, j | 0 <= i < j < |full|
      ensures Since(o, full[i].tick) < Since(o, full[j].tick)
    {
      FiniteOffsetsGrow(cfg, limits, points, anchor, i, j);
    }
    forall i | 0 < i < |full|
      ensures PlanStep(o, cfg, full[i - 1], full[i])
    {
      assert FinitePointOk(cfg, limits, points, anchor, i);
    }
  }

  lemma FinitePlanHasPoints(cfg: Config, limits: Limits, points: seq<Point>, anchor: Vec)
    requires FinitePlanOk(cfg, limits, points, anchor)
    ensures |points| > 0
  {
  }

  lemma PlacedSplits(points: seq<Point>, n: nat, base: u32)
    requires n <= |points|
    ensures Placed(points[..n], base, 0) + Placed(points[n..], base, 0) == Placed(points, base, 0)
  {
    hide HostTick;
  }

  lemma PlanStepAllowed(o: u32, cfg: Config, limits: Limits, policy: Policy, full: seq<Setpoint>, i: nat)
    requires GoodPlan(o, cfg, limits, full) && SentPolicy(cfg, policy) && 0 < i < |full|
    ensures StepAllowed(full[i - 1], full[i], policy.maximumStep)
  {
    hide StepFits, BatchWithinLimits;
    assert PlanStep(o, cfg, full[i - 1], full[i]);
    StepPlaced(o, cfg, policy, full[i - 1], full[i], Since(o, full[i].tick) - Since(o, full[i - 1].tick));
  }

  // ---- The first batch of a finite plan ----

  /** The points inside the lead window are the first ones. */
  lemma {:induction false} InsideLeadIsPrefix(cfg: Config, points: seq<Point>)
    requires forall i, j :: 0 <= i < j < |points| ==> points[i].offset < points[j].offset
    ensures forall i :: 0 <= i < |points| ==> (i < InsideLead(cfg, points) <==> points[i].offset <= cfg.maximumLeadMs)
    decreases |points|
  {
    if points != [] {
      var front := points[..|points| - 1];
      InsideLeadIsPrefix(cfg, front);
      forall i | 0 <= i < |points|
        ensures i < InsideLead(cfg, points) <==> points[i].offset <= cfg.maximumLeadMs
      {
        if i < |front| {
          assert front[i] == points[i];
        }
        if 0 < |front| {
          assert front[|front| - 1] == points[|front| - 1];
        }
      }
    }
  }

  /** The beginning of a finite plan is a finite plan. */
  lemma FinitePrefixOk(cfg: Config, limits: Limits, points: seq<Point>, anchor: Vec, n: nat)
    requires FinitePlanOk(cfg, limits, points, anchor) && cfg.minimumStartSamples <= n && 0 < n <= |points|
    ensures FinitePlanOk(cfg, limits, points[..n], anchor)
  {
    hide StepFits, WithinLimits;
    forall i | 0 <= i < n
      ensures FinitePointOk(cfg, limits, points[..n], anchor, i)
    {
      assert FinitePointOk(cfg, limits, points, anchor, i);
    }
  }

  /** What a finite start sends at once lies inside the lead window and is well
      made for the firmware. */
  lemma FirstSliceIsWellmade(o: u32, base: u32, cfg: Config, limits: Limits, policy: Policy, points: seq<Point>,
                             anchor: Vec)
    requires FinitePlanOk(cfg, limits, points, anchor) && SentPolicy(cfg, policy)
    requires 0 < InitialCount(cfg, points) && cfg.minimumStartSamples <= InitialCount(cfg, points)
    requires Since(o, base) + cfg.maximumLeadMs < TWO_31
    ensures Wellmade(o, base, limits, policy, Placed(points[..InitialCount(cfg, points)], base, 0))
  {
    hide FinitePlanOk, StepFits, StepAllowed, WithinLimits, HostTick, PlanStep, InsideLead;
    var n := InitialCount(cfg, points);
    var slice := points[..n];
    var samples := Placed(slice, base, 0);
    forall i, j | 0 <= i < j < |points|
      ensures points[i].offset < points[j].offset
    {
      FiniteOffsetsGrow(cfg, limits, points, anchor, i, j);
    }
    InsideLeadIsPrefix(cfg, points);
    FinitePrefixOk(cfg, limits, points, anchor, n);
    FinitePlanIsGood(o, base, cfg, limits, slice, anchor);
    forall i | 0 <= i < n
      ensures Since(o, samples[i].tick) <= Since(o, base) + policy.maximumLeadMs
      ensures 0 < i ==> StepAllowed(samples[i - 1], samples[i], policy.maximumStep)
    {
      FiniteOffsetPositive(cfg, limits, slice, anchor, i);
      TickPlaced(o, base, slice[i].offset);
      if 0 < i {
        PlanStepAllowed(o, cfg, limits, policy, samples, i);
      }
    }
  }

  lemma FiniteOffsetPositive(cfg: Config, limits: Limits, points: seq<Point>, anchor: Vec, i: nat)
    requires FinitePlanOk(cfg, limits, points, anchor) && i < |points|
    ensures 0 < points[i].offset
  {
    assert FinitePointOk(cfg, limits, points, anchor, 0);
    FiniteOffsetsGrow(cfg, limits, points, anchor, 0, i);
  }

  // ---- The whole start ----

  /** The host that opens the stream: anchored, claimed and armed. */
  function Anchored(h: Host, a: Action): Host
    requires a.StartAction?
  {
    if h.armed then h else h.(prepared := a.anchor)
  }

  function Launched(h: Host, a: Action): Host
    requires a.StartAction? && Claim(Anchored(h, a), a.owner).Some?
  {
    var h1 := Anchored(h, a);
    var claimed := Claim(h1, a.owner).value;
    claimed.(armed := true, epoch := if h1.owner.Some? then NextEpoch(h1.epoch) else claimed.epoch)
  }

  /** Every check of a start that comes before the stream is opened. */
  predicate StartChecked(u: Setup, h: Host, a: Action)
    requires a.StartAction?
  {
    && u.authorized && h.state == Ready && h.prepared.Some?
    && (!h.armed ==> h.owner.None? && a.anchor.Some? && a.enabled)
    && FirstRoute(u.cfg, u.limits, a.points, a.finite, Anchored(h, a).prepared.value).Some?
    && Claim(Anchored(h, a), a.owner).Some? && a.beat.Some?
  }

  function FirstCount(u: Setup, h: Host, a: Action): (n: nat)
    requires a.StartAction? && StartChecked(u, h, a)
    ensures n <= |a.points|
  {
    FirstRoute(u.cfg, u.limits, a.points, a.finite, Anchored(h, a).prepared.value).value
  }

  /** The horizon a start asks for: the tick of a finite plan's last point. */
  function StartHorizon(a: Action): u32
    requires a.StartAction? && a.beat.Some? && |a.points| > 0
  {
    if a.finite then HostTick(a.beat.value, a.points[|a.points| - 1].offset) else 0
  }

  /** A start is not accepted without all its checks, and opens the stream once
      they hold. */
  lemma StartOpens(u: Setup, s: System, a: Action)
    requires a.StartAction?
    ensures !StartChecked(u, s.host, a) ==> AnswerOf(u, s, a) != Accepted
    ensures StartChecked(u, s.host, a) ==>
              var n := FirstCount(u, s.host, a);
              AnswerOf(u, s, a) == HostOpen(u.cfg, Launched(s.host, a), s.ledger, Placed(a.points[..n], a.beat.value,
                  0), Placed(a.points[n..], a.beat.value, 0), a.finite, a.opening, a.trip).2
  {
    hide HostOpen, FirstRoute, Placed;
  }

  /** Who the MCU listens to is not part of the question whether it opens. */
  lemma AcceptedOpens(cfg: Config, h: Host, l: Ledger, first: seq<Setpoint>, later: seq<Setpoint>, finite: bool,
                      opening: Trip, trip: Trip)
    ensures HostOpen(cfg, h, l, first, later, finite, opening, trip).2 == Accepted ==>
              var all := first + later;
              && all != []
              && SendOpen(l, opening, PolicyRequest(cfg, if finite then all[|all| - 1].tick else 0)).1
  {
    hide SendOpen, SendBatch, PolicyRequest, AppendRequest;
  }

  /** What an acknowledged open says about the host's configuration. */
  lemma OpenBounds(o: u32, base: u32, u: Setup, caps: HardCaps, l: Ledger, opening: Trip, horizon: u32)
    requires Refines(o, base, l) && l.exec.caps == caps && TripTimely(o, base, caps, opening)
    requires SendOpen(l, opening, PolicyRequest(u.cfg, horizon)).1
    ensures 1 <= u.cfg.minimumStartSamples && u.cfg.maximumLeadMs <= caps.maximumLeadMs
    ensures SentPolicy(u.cfg, SendOpen(l, opening, PolicyRequest(u.cfg, horizon)).0.exec.session.policy)
  {
    hide Refines, TimelyRun, SendOpen, PolicyRequest, Sound;
    var request := PolicyRequest(u.cfg, horizon);
    var ready := SendOpen(l, opening, request).0;
    OpenDelivered(o, base, l, opening, request);
    OpenPrimes(l, opening, request);
    RefinesSound(o, opening.at, ready);
    PolicyOnArrival(ready.exec);
    PolicyIsSent(u.cfg, horizon, ready.exec.session.policy);
    RequestSamples(u.cfg, horizon);
  }

  lemma RequestSamples(cfg: Config, horizon: u32)
    ensures PolicyRequest(cfg, horizon).minimumStartSamples == cfg.minimumStartSamples
  {
  }

  /** What a start sends at once is well made. */
  lemma StartIsWellmade(o: u32, base: u32, u: Setup, policy: Policy, h: Host, a: Action)
    requires a.StartAction? && StartChecked(u, h, a) && a.beat == Some(base) && SentPolicy(u.cfg, policy)
    requires 1 <= u.cfg.minimumStartSamples && Since(o, base) + u.cfg.maximumLeadMs < TWO_31
    ensures var n := FirstCount(u, h, a);
            0 < n && Wellmade(o, base, u.limits, policy, Placed(a.points[..n], base, 0))
  {
    hide HostTick, Wellmade, FinitePlanOk, PointsOk, Claim, InitialCount, SentPolicy;
    var anchor := Anchored(h, a).prepared.value;
    var n := FirstCount(u, h, a);
    if a.finite {
      FinitePlanHasPoints(u.cfg, u.limits, a.points, anchor);
      FirstSliceIsWellmade(o, base, u.cfg, u.limits, policy, a.points, anchor);
    } else {
      LastInsideLead(u.cfg, u.limits, a.points, Some(anchor), a.points[0].offset);
      RouteIsWellmade(o, base, u.cfg, u.limits, policy, a.points, Some(anchor), a.points[0].offset, 0);
      assert a.points[..n] == a.points;
    }
  }

  lemma LastInsideLead(cfg: Config, limits: Limits, points: seq<Point>, reference: Option<Vec>, span: int)
    requires PointsOk(cfg, limits, points, reference, span)
    ensures points[|points| - 1].offset <= cfg.maximumLeadMs
  {
    assert PointOk(cfg, limits, points, reference, span, |points| - 1);
  }

  lemma StartHasBeat(u: Setup, h: Host, a: Action)
    requires a.StartAction? && StartChecked(u, h, a)
    ensures a.beat.Some? && Claim(Anchored(h, a), a.owner).Some?
  {
  }

  lemma StartWindow(o: u32, clock: u32, caps: HardCaps, a: Action)
    requires a.StartAction? && a.beat.Some? && ActionTimely(o, clock, caps, a)
    ensures Since(o, clock) <= Since(o, a.beat.value) && Since(o, a.beat.value) + caps.maximumLeadMs < TWO_31
  {
    hide TimelyRun;
  }

  /** When a start, rolling or finite, is accepted, in terms a caller can check
      beforehand: the host's own checks, how the two requests travel, that the
      MCU finds no stream running and a policy inside its caps, and that the
      first batch still has its lead and does not pass the horizon. */
  ghost predicate StartPasses(o: u32, u: Setup, caps: HardCaps, s: System, a: Action)
    requires a.StartAction?
  {
    && StartChecked(u, s.host, a) && a.beat.Some? && |a.points| > 0
    && OpenPasses(s.ledger, a.opening, PolicyRequest(u.cfg, StartHorizon(a)), caps)
    && a.trip.arrives && a.trip.answered
    && EnoughLead(o, a.trip.at, HostTick(a.beat.value, a.points[0].offset), u.cfg.minimumLeadMs)
    && var first := Placed(a.points[..FirstCount(u, s.host, a)], a.beat.value, 0);
       first != [] && EndsInTime(first, StartHorizon(a))
  }

  /** The whole of `start`, from any linked state. */
  lemma HostStartsAreAccepted(o: u32, clock: u32, u: Setup, caps: HardCaps, s: System, a: Action)
    requires Linked(o, clock, u, caps, s) && a.StartAction? && ActionTimely(o, clock, caps, a)
    ensures AnswerOf(u, s, a) == Accepted <==> StartPasses(o, u, caps, s, a)
  {
    hide Refines, TripTimely, SendOpen, SendBatch, PolicyRequest, AppendRequest, StartChecked, HostOpen, Wellmade,
         EnoughLead, HostTick, AnswerOf, SentPolicy, Launched, FirstCount, OpenPasses, EndsInTime;
    StartOpens(u, s, a);
    if StartChecked(u, s.host, a) {
      StartHasBeat(u, s.host, a);
      var base, n := a.beat.value, FirstCount(u, s.host, a);
      var first, later := Placed(a.points[..n], base, 0), Placed(a.points[n..], base, 0);
      var h := s.host;
      PlacedSplits(a.points, n, base);
      AcceptedOpens(u.cfg, Launched(h, a), s.ledger, first, later, a.finite, a.opening, a.trip);
      if |a.points| > 0 {
        RefinesLater(o, clock, base, s.ledger);
        RequestArms(u.cfg, StartHorizon(a));
        OpenIsAnswered(o, base, s.ledger, a.opening, PolicyRequest(u.cfg, StartHorizon(a)));
        if SendOpen(s.ledger, a.opening, PolicyRequest(u.cfg, StartHorizon(a))).1 {
          StartMeetsMcu(o, clock, u, caps, s, a);
        }
      }
    }
  }

  /** Once the open is acknowledged the first batch decides. */
  lemma StartMeetsMcu(o: u32, clock: u32, u: Setup, caps: HardCaps, s: System, a: Action)
    requires Linked(o, clock, u, caps, s) && a.StartAction? && ActionTimely(o, clock, caps, a)
    requires StartChecked(u, s.host, a) && a.beat.Some? && |a.points| > 0
    requires SendOpen(s.ledger, a.opening, PolicyRequest(u.cfg, StartHorizon(a))).1
    ensures var first := Placed(a.points[..FirstCount(u, s.host, a)], a.beat.value, 0);
            && first != []
            && (AnswerOf(u, s, a) == Accepted
                <==> && a.trip.arrives && a.trip.answered && EndsInTime(first, StartHorizon(a))
                     && EnoughLead(o, a.trip.at, HostTick(a.beat.value, a.points[0].offset), u.cfg.minimumLeadMs))
  {
    hide Refines, TripTimely, SendOpen, SendBatch, PolicyRequest, AppendRequest, StartChecked, HostOpen, Wellmade,
         EnoughLead, HostTick, AnswerOf, SentPolicy, Launched, FirstCount, EndsInTime;
    var h, base, n := s.host, a.beat.value, FirstCount(u, s.host, a);
    var first, later := Placed(a.points[..n], base, 0), Placed(a.points[n..], base, 0);
    StartOpens(u, s, a);
    StartHasBeat(u, h, a);
    PlacedSplits(a.points, n, base);
    RefinesLater(o, clock, base, s.ledger);
    OpenBounds(o, base, u, caps, s.ledger, a.opening, StartHorizon(a));
    StartWindow(o, clock, caps, a);
    forall policy | SentPolicy(u.cfg, policy)
      ensures Wellmade(o, base, u.limits, policy, first)
    {
      StartIsWellmade(o, base, u, policy, h, a);
    }
    StartIsWellmade(o, base, u, SendOpen(s.ledger, a.opening,
        PolicyRequest(u.cfg, StartHorizon(a))).0.exec.session.policy, h, a);
    StartsAreAccepted(o, clock, u, caps, Launched(h, a), s.ledger, first, later, a.finite, base, a.opening, a.trip);
  }

  lemma RequestArms(cfg: Config, horizon: u32)
    ensures PolicyRequest(cfg, horizon).armMask == ARM_MASK_BOTH
  {
  }
}
