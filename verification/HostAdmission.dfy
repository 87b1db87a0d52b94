/** What the host validates, the firmware accepts: a request the host sends can
    only be refused for arriving late or for want of room. */
module HostAdmission {
  import opened Words
  import opened StreamContract
  import opened StreamSession
  import opened StreamExecutor
  import opened ExecutorRuns
  import opened Timeline
  import opened PlanRefinement
  import opened SlewBound
  import opened WireCodec
  import opened HostAdapter
  import opened HostSimulation
  import opened HostRuns
  import opened HostGuarantees

  // ---- The contract, for batches in order ----

  /** A batch in order, on time for `base`, inside limits and step limits. */
  ghost predicate Wellmade(o: u32, base: u32, limits: Limits, policy: Policy, samples: seq<Setpoint>) {
    && 0 < |samples| <= WIRE_MAX_SAMPLES
    && Ordered(o, samples)
    && (forall i :: 0 <= i < |samples| ==> Since(o, samples[i].tick) <= Since(o, base) + policy.maximumLeadMs)
    && BatchWithinLimits(limits, samples)
    && StepsAllowed(samples, policy.maximumStep)
  }

  /** The session a batch is meant for: same epoch and horizon, both arms. */
  ghost predicate Addressed(s: Session, horizon: u32, epoch: u32) {
    && s.open && (s.epochEstablished ==> s.arbiterEpoch == epoch)
    && s.horizonEndTick == horizon && s.policy.armMask == ARM_MASK_BOTH
  }

  ghost predicate EnoughLead(o: u32, at: u32, tick: u32, lead: int) {
    Since(o, at) < Since(o, tick) && lead <= Since(o, tick) - Since(o, at)
  }

  /** The contract's check on the last tick. */
  lemma LateOk(o: u32, base: u32, limits: Limits, policy: Policy, samples: seq<Setpoint>, at: u32)
    requires Wellmade(o, base, limits, policy, samples)
    requires Since(o, base) <= Since(o, at) < Since(o, samples[0].tick)
    ensures Sub32(samples[|samples| - 1].tick, at) <= policy.maximumLeadMs
  {
    hide StepsAllowed, BatchWithinLimits;
    var final := samples[|samples| - 1].tick;
    assert Since(o, samples[0].tick) <= Since(o, final);
    HalfWindow(o, final, at);
  }

  /** The contract's check on the horizon of a finite stream. */
  predicate EndsInTime(samples: seq<Setpoint>, horizon: u32)
    requires samples != []
  {
    horizon == 0 || !TickAfter(samples[|samples| - 1].tick, horizon)
  }

  lemma EndsBy(o: u32, samples: seq<Setpoint>, horizon: u32)
    requires samples != []
    requires horizon != 0 ==> Since(o, samples[|samples| - 1].tick) <= Since(o, horizon) < TWO_31
    ensures EndsInTime(samples, horizon)
  {
    if horizon != 0 {
      HalfWindow(o, samples[|samples| - 1].tick, horizon);
    }
  }

  /** An append the host made is admitted exactly when its first sample still
      has the minimum lead on arrival, its last one does not pass the horizon,
      and the queue has room. */
  lemma AppendVerdict(o: u32, base: u32, e: Executor, horizon: u32, epoch: u32, samples: seq<Setpoint>, at: u32)
    requires Ordered(o, e.session.samples) && Addressed(e.session, horizon, epoch)
    requires Wellmade(o, base, e.limits, e.session.policy, samples)
    requires Since(o, base) <= Since(o, at) < TWO_31
    requires var queue := e.session.samples;
             queue != [] ==> && Since(o, queue[|queue| - 1].tick) < Since(o, samples[0].tick)
                             && StepAllowed(queue[|queue| - 1], samples[0], e.session.policy.maximumStep)
    ensures ExecAdmitBatch(e, Request(horizon, epoch, 0, samples), Append, at).1 == Done
       <==> && EnoughLead(o, at, samples[0].tick, e.session.policy.minimumLeadMs)
            && EndsInTime(samples, horizon)
            && |e.session.samples| + |samples| <= QUEUE_CAPACITY
  {
    hide StepsAllowed, BatchWithinLimits, Ordered;
    var queue, b := e.session.samples, Request(horizon, epoch, 0, samples);
    var first := samples[0].tick;
    FirstInWindow(o, base, e.limits, e.session.policy, samples);
    HalfWindow(o, first, at);
    if queue != [] {
      TailInWindow(o, queue);
      HalfWindow(o, first, queue[|queue| - 1].tick);
    }
    if Since(o, at) < Since(o, first) {
      LateOk(o, base, e.limits, e.session.policy, samples, at);
    }
    AppendDecides(e, b, at);
  }

  lemma FirstInWindow(o: u32, base: u32, limits: Limits, policy: Policy, samples: seq<Setpoint>)
    requires Wellmade(o, base, limits, policy, samples)
    ensures Since(o, samples[0].tick) < TWO_31
  {
  }

  lemma TailInWindow(o: u32, queue: seq<Setpoint>)
    requires Ordered(o, queue) && queue != []
    ensures Since(o, queue[|queue| - 1].tick) < TWO_31
  {
  }

  /** The executor's and the session's checks on an append, all in one place. */
  lemma AppendDecides(e: Executor, b: Batch, at: u32)
    requires 0 < |b.samples| <= WIRE_MAX_SAMPLES && b.firstApplyTick == b.samples[0].tick
    requires Addressed(e.session, b.horizonEndTick, b.arbiterEpoch) && b.armMask == ARM_MASK_BOTH && b.spliceAtTick == 0
    requires BatchWithinLimits(e.limits, b.samples) && StepsAllowed(b.samples, e.session.policy.maximumStep)
    requires var queue := e.session.samples;
             queue != [] ==> StepAllowed(queue[|queue| - 1], b.samples[0], e.session.policy.maximumStep)
    ensures ExecAdmitBatch(e, b, Append, at).1 == Done
       <==> var final, first, queue := b.samples[|b.samples| - 1].tick, b.firstApplyTick, e.session.samples;
            && TickAfter(first, at) && Sub32(first, at) >= e.session.policy.minimumLeadMs
            && Sub32(final, at) <= e.session.policy.maximumLeadMs
            && (b.horizonEndTick != 0 ==> !TickAfter(final, b.horizonEndTick))
            && (queue != [] ==> TickAfter(first, queue[|queue| - 1].tick))
            && |queue| + |b.samples| <= QUEUE_CAPACITY
  {
    hide TickAfter, Sub32, StepsAllowed, BatchWithinLimits;
    var queue := e.session.samples;
    if queue != [] {
      CrossFromStep(queue[|queue| - 1], b, e.session.policy.maximumStep);
    }
  }

  lemma CrossFromStep(tail: Setpoint, b: Batch, m: Vec)
    requires |b.samples| > 0 && b.firstApplyTick == b.samples[0].tick && StepAllowed(tail, b.samples[0], m)
    ensures CrossBatchOk(tail, b, m)
  {
  }

  /** A splice the host made is admitted exactly when its tick still has the
      lead on arrival, the MCU can still interpolate there, and the queue has
      room after the cut. */
  lemma SpliceVerdict(o: u32, base: u32, e: Executor, epoch: u32, samples: seq<Setpoint>, at: u32)
    requires Ordered(o, e.session.samples) && e.session.open
    requires e.session.horizonEndTick == 0 && e.session.policy.armMask == ARM_MASK_BOTH
    requires Wellmade(o, base, e.limits, e.session.policy, samples)
    requires Since(o, base) <= Since(o, at) < TWO_31 && samples[0].tick != 0
    requires forall j :: 0 <= j < JOINT_COUNT ==> 0 < e.session.policy.maximumStep[j]
    requires var queue, splice := e.session.samples, samples[0].tick;
             && (queue != [] ==> Since(o, splice) <= Since(o, queue[|queue| - 1].tick))
             && (Interpolate(queue, splice).Some? ==> Interpolate(queue, splice) == Some(samples[0].pos))
    ensures ExecAdmitBatch(e, Request(0, epoch, samples[0].tick, samples), Splice, at).1 == Done
       <==> && EnoughLead(o, at, samples[0].tick, e.session.policy.minimumLeadMs)
            && EnoughLead(o, at, samples[0].tick, MINIMUM_SPLICE_LEAD_MS)
            && e.session.samples != [] && Since(o, e.session.samples[0].tick) <= Since(o, samples[0].tick)
            && RetainedFrom(e.session.samples, samples[0].tick, 0) + |samples| <= QUEUE_CAPACITY
  {
    hide StepsAllowed, BatchWithinLimits, Interpolate;
    var queue, b, splice := e.session.samples, Request(0, epoch, samples[0].tick, samples), samples[0].tick;
    InterpolateAnswers(o, queue, splice);
    HalfWindow(o, splice, at);
    if queue != [] {
      HalfWindow(o, splice, queue[|queue| - 1].tick);
    }
    if Since(o, at) < Since(o, splice) {
      LateOk(o, base, e.limits, e.session.policy, samples, at);
    }
    SpliceDecides(e, b, at);
  }

  lemma SpliceDecides(e: Executor, b: Batch, at: u32)
    requires 0 < |b.samples| <= WIRE_MAX_SAMPLES && b.firstApplyTick == b.samples[0].tick == b.spliceAtTick != 0
    requires e.session.open && e.session.horizonEndTick == b.horizonEndTick == 0
    requires e.session.policy.armMask == ARM_MASK_BOTH == b.armMask
    requires BatchWithinLimits(e.limits, b.samples) && StepsAllowed(b.samples, e.session.policy.maximumStep)
    requires forall j :: 0 <= j < JOINT_COUNT ==> 0 < e.session.policy.maximumStep[j]
    requires var r := Interpolate(e.session.samples, b.spliceAtTick); r.Some? ==> r == Some(b.samples[0].pos)
    ensures ExecAdmitBatch(e, b, Splice, at).1 == Done
       <==> var final, queue, splice := b.samples[|b.samples| - 1].tick, e.session.samples, b.spliceAtTick;
            && Sub32(final, at) <= e.session.policy.maximumLeadMs
            && TickAfter(splice, at) && Sub32(splice, at) >= MINIMUM_SPLICE_LEAD_MS
            && Sub32(splice, at) >= e.session.policy.minimumLeadMs
            && Interpolate(queue, splice).Some?
            && queue != [] && !TickAfter(splice, queue[|queue| - 1].tick)
            && RetainedFrom(queue, splice, 0) + |b.samples| <= QUEUE_CAPACITY
  {
    hide TickAfter, Sub32, StepsAllowed, BatchWithinLimits, LerpVec;
  }

  // ---- What the host's checks give ----

  /** The step limit of a policy the host sent is its configured step. */
  ghost predicate SentPolicy(cfg: Config, policy: Policy) {
    && policy.minimumLeadMs as int == cfg.minimumLeadMs && policy.maximumLeadMs as int == cfg.maximumLeadMs
    && policy.armMask == ARM_MASK_BOTH
    && forall j :: 0 <= j < JOINT_COUNT ==> policy.maximumStep[j] as int == cfg.maximumStep
  }

  lemma PolicyIsSent(cfg: Config, horizon: u32, policy: Policy)
    requires AsHostPolicy(policy) == PolicyRequest(cfg, horizon)
    ensures SentPolicy(cfg, policy)
  {
    var sent := PolicyRequest(cfg, horizon);
    assert AsHostPolicy(policy).maximumStep == sent.maximumStep;
    forall j | 0 <= j < JOINT_COUNT
      ensures policy.maximumStep[j] as int == cfg.maximumStep
    {
      assert AsHostPolicy(policy).maximumStep[j] == sent.maximumStep[j];
    }
  }

  /** Offsets increase along a validated route. */
  lemma {:induction false} OffsetsGrow(cfg: Config, limits: Limits, points: seq<Point>, reference: Option<Vec>,
                                       span: int, i: nat, j: nat)
    requires PointsOk(cfg, limits, points, reference, span) && i < j < |points|
    ensures points[i].offset < points[j].offset
    decreases j - i
  {
    hide StepFits, WithinLimits;
    assert PointOk(cfg, limits, points, reference, span, j);
    if i < j - 1 {
      OffsetsGrow(cfg, limits, points, reference, span, i, j - 1);
    }
  }

  lemma TickPlaced(o: u32, base: u32, offset: int)
    requires 0 <= offset && Since(o, base) + offset < TWO_31
    ensures Since(o, HostTick(base, offset)) == Since(o, base) + offset
  {
    if base + offset < TWO_32 {
      assert (base + offset) % TWO_32 == base + offset;
    } else {
      assert (base + offset) % TWO_32 == base + offset - TWO_32;
    }
  }

  /** The ticks of a validated route, placed with a shift inside the window. */
  lemma RouteTicks(o: u32, base: u32, cfg: Config, limits: Limits, points: seq<Point>, reference: Option<Vec>,
                   span: int, shift: nat)
    requires PointsOk(cfg, limits, points, reference, span)
    requires points[|points| - 1].offset + shift <= cfg.maximumLeadMs
    requires Since(o, base) + cfg.maximumLeadMs < TWO_31
    ensures forall i :: 0 <= i < |points| ==>
              && Since(o, Placed(points, base, shift)[i].tick) == Since(o, base) + points[i].offset + shift
              && 0 < points[i].offset && points[i].offset + shift <= cfg.maximumLeadMs
  {
    hide HostTick, StepFits, WithinLimits;
    forall i | 0 <= i < |points|
      ensures && Since(o, Placed(points, base, shift)[i].tick) == Since(o, base) + points[i].offset + shift
              && 0 < points[i].offset && points[i].offset + shift <= cfg.maximumLeadMs
    {
      assert PointOk(cfg, limits, points, reference, span, i);
      if i < |points| - 1 {
        OffsetsGrow(cfg, limits, points, reference, span, i, |points| - 1);
      }
      TickPlaced(o, base, points[i].offset + shift);
    }
  }

  /** Two points placed a whole number of control ticks apart, within the step. */
  lemma StepPlaced(o: u32, cfg: Config, policy: Policy, from: Setpoint, to: Setpoint, span: int)
    requires SentPolicy(cfg, policy)
    requires 0 < span && span % CONTROL_TICK_MS == 0 && StepFits(cfg, from.pos, to.pos, span)
    requires Since(o, from.tick) < TWO_31 && Since(o, to.tick) < TWO_31
    requires Since(o, to.tick) - Since(o, from.tick) == span
    ensures StepAllowed(from, to, policy.maximumStep)
  {
    HalfWindow(o, to.tick, from.tick);
  }

  /** A validated route is well made for the firmware. */
  lemma RouteIsWellmade(o: u32, base: u32, cfg: Config, limits: Limits, policy: Policy, points: seq<Point>,
                        reference: Option<Vec>, span: int, shift: nat)
    requires SentPolicy(cfg, policy) && PointsOk(cfg, limits, points, reference, span)
    requires points[|points| - 1].offset + shift <= cfg.maximumLeadMs
    requires Since(o, base) + cfg.maximumLeadMs < TWO_31
    ensures Wellmade(o, base, limits, policy, Placed(points, base, shift))
  {
    hide HostTick, StepFits, WithinLimits, StepAllowed;
    var samples := Placed(points, base, shift);
    RouteTicks(o, base, cfg, limits, points, reference, span, shift);
    forall i, j | 0 <= i < j < |samples|
      ensures Since(o, samples[i].tick) < Since(o, samples[j].tick)
    {
      OffsetsGrow(cfg, limits, points, reference, span, i, j);
    }
    forall i | 0 <= i < |samples|
      ensures WithinLimits(limits, samples[i].pos)
      ensures 0 < i ==> StepAllowed(samples[i - 1], samples[i], policy.maximumStep)
    {
      assert PointOk(cfg, limits, points, reference, span, i);
      if 0 < i {
        StepPlaced(o, cfg, policy, samples[i - 1], samples[i], points[i].offset - points[i - 1].offset);
      }
    }
  }

  /** The shifted first point is an allowed step from the tail. */
  lemma FirstStep(o: u32, base: u32, cfg: Config, limits: Limits, policy: Policy, points: seq<Point>, tail: Setpoint)
    requires |points| > 0
    requires var first := HostTick(base, points[0].offset);
             var shift := AppendShift(first, tail.tick);
             && HostTickAfter(first, tail.tick)
             && PointsOk(cfg, limits, points, Some(tail.pos), Distance(first, tail.tick) + shift)
             && points[|points| - 1].offset + shift <= cfg.maximumLeadMs
    requires Since(o, base) + cfg.maximumLeadMs < TWO_31 && Since(o, tail.tick) < TWO_31
    requires SentPolicy(cfg, policy)
    ensures var shift := AppendShift(HostTick(base, points[0].offset), tail.tick);
            var samples := Placed(points, base, shift);
            && Since(o, tail.tick) < Since(o, samples[0].tick)
            && StepAllowed(tail, samples[0], policy.maximumStep)
  {
    hide HostTick, StepFits, WithinLimits, StepAllowed, Distance, TickAfter, HostTickAfter;
    var first := HostTick(base, points[0].offset);
    var shift := AppendShift(first, tail.tick);
    var span := Distance(first, tail.tick) + shift;
    RouteTicks(o, base, cfg, limits, points, Some(tail.pos), span, shift);
    assert PointOk(cfg, limits, points, Some(tail.pos), span, 0);
    TickPlaced(o, base, points[0].offset);
    TickOrdersAgree(first, tail.tick);
    DistanceIsSub(first, tail.tick);
    HalfWindow(o, first, tail.tick);
    StepPlaced(o, cfg, policy, tail, Placed(points, base, shift)[0], span);
  }

  // ---- Sending what was checked ----

  /** Samples in order inside one half-window encode. */
  lemma OrderedEncodes(o: u32, b: Batch, kind: Kind)
    requires 0 < |b.samples| <= WIRE_MAX_SAMPLES && Ordered(o, b.samples) && b.firstApplyTick == b.samples[0].tick
    requires b.armMask == ARM_MASK_BOTH && (kind == Append <==> b.spliceAtTick == 0)
    ensures EncodeBatch(AsHostBatch(b), kind).Some?
  {
    hide SamplesEncode, ToSetpoints, HeaderBytes, SamplesBytes;
    forall i | 0 <= i < |b.samples|
      ensures 0 < i ==> TickAfter(b.samples[i].tick, b.samples[i - 1].tick)
      ensures Sub32(b.samples[i].tick, b.firstApplyTick) < TWO_31
    {
      assert 0 < i ==> Since(o, b.samples[0].tick) < Since(o, b.samples[i].tick);
      HalfWindow(o, b.samples[i].tick, b.samples[0].tick);
      if 0 < i {
        HalfWindow(o, b.samples[i].tick, b.samples[i - 1].tick);
      }
    }
    assert WireOrdered(b);
    EncodesWhenOrdered(b);
    PacksAsBatch(b, kind);
  }

  /** A request that arrives and is answered is acknowledged exactly when the
      MCU admits its batch. */
  lemma SentIsAdmitted(o: u32, l: Ledger, trip: Trip, b: Batch, kind: Kind)
    requires 0 < |b.samples| <= WIRE_MAX_SAMPLES && Ordered(o, b.samples) && b.firstApplyTick == b.samples[0].tick
    requires b.armMask == ARM_MASK_BOTH && (kind == Append <==> b.spliceAtTick == 0)
    requires trip.arrives && trip.answered
    requires var mid := BookAll(l, trip.meanwhile).exec;
             mid.diag.state in {Priming, Running} && mid.session.policy.armMask == ARM_MASK_BOTH
    ensures SendBatch(l, trip, AsHostBatch(b), kind).1
       <==> ExecAdmitBatch(BookAll(l, trip.meanwhile).exec, b, kind, trip.at).1 == Done
  {
    hide EncodeBatch, DecodeBatch, ExecAdmitBatch, AsHostBatch, Ordered, WireOrdered;
    OrderedEncodes(o, b, kind);
    BatchWire(b, kind, EncodeBatch(AsHostBatch(b), kind).value);
    var mid := BookAll(l, trip.meanwhile).exec;
    if ExecAdmitBatch(mid, b, kind, trip.at).1 == Done {
      AdmittedShape(mid, b, kind, trip.at);
    }
  }

  /** The request arrives and its answer comes back, and the MCU is still
      taking batches when it does. */
  predicate Received(l: Ledger, trip: Trip) {
    trip.arrives && trip.answered && BookAll(l, trip.meanwhile).exec.diag.state in {Priming, Running}
  }

  /** Nothing else is ever acknowledged. */
  lemma SentIsReceived(l: Ledger, trip: Trip, b: HostBatch, kind: Kind)
    ensures SendBatch(l, trip, b, kind).1 ==> Received(l, trip)
  {
    hide EncodeBatch, DecodeBatch, ExecAdmitBatch;
  }

  // ---- The three requests ----

  /** The MCU when a request of an active host reaches it, still taking batches. */
  ghost predicate Receptive(o: u32, u: Setup, caps: HardCaps, h: Host, mid: Executor) {
    var queue := mid.session.samples;
    && mid.diag.state in {Priming, Running} && mid.limits == u.limits
    && Addressed(mid.session, HorizonOf(h), h.epoch) && SentPolicy(u.cfg, mid.session.policy)
    && mid.session.policy.maximumLeadMs <= caps.maximumLeadMs
    && (forall j :: 0 <= j < JOINT_COUNT ==> 0 < mid.session.policy.maximumStep[j])
    && Ordered(o, queue)
    && h.tail.Some? && Since(o, h.tail.value.tick) < TWO_31
    && (queue != [] ==> queue[|queue| - 1] == h.tail.value)
  }

  /** What only requests change is as the host left it. */
  lemma TermsOnArrival(o: u32, clock: u32, u: Setup, caps: HardCaps, s: System, mid: Executor)
    requires Linked(o, clock, u, caps, s) && s.host.state == Active
    requires Terms(mid.session) == Terms(s.ledger.exec.session)
    ensures Addressed(mid.session, HorizonOf(s.host), s.host.epoch) && SentPolicy(u.cfg, mid.session.policy)
  {
    hide Refines, FutureRoute, PolicyRequest, AsHostPolicy, SentPolicy;
    PolicyIsSent(u.cfg, HorizonOf(s.host), s.ledger.exec.session.policy);
    SentBothArms(u.cfg, mid.session.policy);
    var there, here := Terms(mid.session), Terms(s.ledger.exec.session);
    assert mid.session.policy == there.policy && mid.session.open == there.open
           && mid.session.horizonEndTick == there.horizonEndTick && mid.session.arbiterEpoch == there.arbiterEpoch;
    assert s.ledger.exec.session.policy == here.policy && s.ledger.exec.session.open == here.open;
  }

  lemma SentBothArms(cfg: Config, policy: Policy)
    ensures SentPolicy(cfg, policy) ==> policy.armMask == ARM_MASK_BOTH
  {
  }

  /** The MCU's queue still ends where the host's route ends. */
  lemma QueueOnArrival(o: u32, clock: u32, u: Setup, caps: HardCaps, s: System, mid: Ledger, at: u32)
    requires Linked(o, clock, u, caps, s) && s.host.state == Active
    requires Refines(o, at, mid) && mid.plan == s.ledger.plan
    ensures var h, queue := s.host, mid.exec.session.samples;
            && Ordered(o, queue) && h.tail.Some? && Since(o, h.tail.value.tick) < TWO_31
            && (queue != [] ==> queue[|queue| - 1] == h.tail.value)
  {
    hide Refines, InStep;
    RouteEndsPlan(o, clock, u.cfg, s.host, s.ledger, s.beat);
    PlanOrdered(o, at, mid);
    QueueInPlan(o, at, mid);
  }

  lemma PolicyOnArrival(e: Executor)
    requires Sound(e) && e.diag.state != Closed
    ensures e.session.policy.maximumLeadMs <= e.caps.maximumLeadMs
    ensures forall j :: 0 <= j < JOINT_COUNT ==> 0 < e.session.policy.maximumStep[j]
  {
  }

  lemma OnArrival(o: u32, clock: u32, u: Setup, caps: HardCaps, s: System, base: u32, trip: Trip)
    requires Linked(o, clock, u, caps, s) && s.host.state == Active && Prompt(o, clock, caps, base, trip)
    requires BookAll(s.ledger, trip.meanwhile).exec.diag.state in {Priming, Running}
    ensures Receptive(o, u, caps, s.host, BookAll(s.ledger, trip.meanwhile).exec)
  {
    hide Refines, TimelyRun, InStep, Sound, SentPolicy, Addressed, Ordered, Terms;
    RefinesLater(o, clock, base, s.ledger);
    Meanwhile(o, base, s.ledger, trip);
    var mid := BookAll(s.ledger, trip.meanwhile);
    TermsOnArrival(o, clock, u, caps, s, mid.exec);
    QueueOnArrival(o, clock, u, caps, s, mid, trip.at);
    RefinesSound(o, trip.at, mid);
    PolicyOnArrival(mid.exec);
  }

  /** An append that passes the host's own checks. */
  ghost predicate AppendChecked(cfg: Config, limits: Limits, points: seq<Point>, base: u32, tail: Setpoint) {
    |points| > 0 &&
    var first := HostTick(base, points[0].offset);
    var shift := AppendShift(first, tail.tick);
    && HostTickAfter(first, tail.tick)
    && points[|points| - 1].offset + shift <= cfg.maximumLeadMs
    && PointsOk(cfg, limits, points, Some(tail.pos), Distance(first, tail.tick) + shift)
  }

  /** The samples it is sent as. */
  function AppendSamples(points: seq<Point>, base: u32, tail: Setpoint): (r: seq<Setpoint>)
    requires |points| > 0
    ensures |r| == |points|
  {
    Placed(points, base, AppendShift(HostTick(base, points[0].offset), tail.tick))
  }

  lemma AppendIsSent(cfg: Config, limits: Limits, h: Host, l: Ledger, points: seq<Point>, base: u32, trip: Trip)
    requires h.tail.Some? && AppendChecked(cfg, limits, points, base, h.tail.value)
    ensures HostAppendAt(cfg, limits, h, l, points, base, trip).2 == Accepted
       <==> SendBatch(l, trip, AppendRequest(HorizonOf(h), h.epoch, AppendSamples(points, base, h.tail.value)),
           Append).1
  {
    hide SendBatch, PointsOk, HostTick, HostTickAfter, Distance, AppendRequest, FutureRoute;
  }

  lemma AppendIsWellmade(o: u32, base: u32, cfg: Config, limits: Limits, policy: Policy, points: seq<Point>,
                         tail: Setpoint)
    requires AppendChecked(cfg, limits, points, base, tail) && SentPolicy(cfg, policy)
    requires Since(o, base) + cfg.maximumLeadMs < TWO_31 && Since(o, tail.tick) < TWO_31
    ensures var samples := AppendSamples(points, base, tail);
            && Wellmade(o, base, limits, policy, samples)
            && Since(o, tail.tick) < Since(o, samples[0].tick) && StepAllowed(tail, samples[0], policy.maximumStep)
  {
    hide PointsOk, HostTick, HostTickAfter, Distance, Wellmade, StepAllowed, SentPolicy;
    var first := HostTick(base, points[0].offset);
    var shift := AppendShift(first, tail.tick);
    RouteIsWellmade(o, base, cfg, limits, policy, points, Some(tail.pos), Distance(first, tail.tick) + shift, shift);
    FirstStep(o, base, cfg, limits, policy, points, tail);
  }

  /** Every append that passes the host's own checks is accepted exactly when
      its first sample still has the minimum lead when it arrives, its last
      sample does not pass the horizon of a finite stream, and the MCU's queue
      has room. */
  lemma AppendsAreAccepted(o: u32, clock: u32, u: Setup, caps: HardCaps, s: System, points: seq<Point>, base: u32,
                           trip: Trip)
    requires Linked(o, clock, u, caps, s) && s.host.state == Active && Prompt(o, clock, caps, base, trip)
    requires s.host.tail.Some? && |points| > 0 && AppendChecked(u.cfg, u.limits, points, base, s.host.tail.value)
    requires trip.arrives && trip.answered
    requires BookAll(s.ledger, trip.meanwhile).exec.diag.state in {Priming, Running}
    ensures HostAppendAt(u.cfg, u.limits, s.host, s.ledger, points, base, trip).2 == Accepted
       <==> && EnoughLead(o, trip.at, AppendSamples(points, base, s.host.tail.value)[0].tick, u.cfg.minimumLeadMs)
            && EndsInTime(AppendSamples(points, base, s.host.tail.value), HorizonOf(s.host))
            && |BookAll(s.ledger, trip.meanwhile).exec.session.samples| + |points| <= QUEUE_CAPACITY
  {
    hide Linked, AppendChecked, AppendSamples, TripTimely, SendBatch, ExecAdmitBatch, Wellmade, StepAllowed,
         AsHostBatch, AppendRequest, SpliceRequest, Ordered, HostAppendAt;
    var h, l := s.host, s.ledger;
    var mid := BookAll(l, trip.meanwhile).exec;
    OnArrival(o, clock, u, caps, s, base, trip);
    BaseInWindow(o, clock, u, caps, mid.session.policy, base, trip);
    var samples := AppendSamples(points, base, h.tail.value);
    AppendIsSent(u.cfg, u.limits, h, l, points, base, trip);
    AppendIsWellmade(o, base, u.cfg, u.limits, mid.session.policy, points, h.tail.value);
    WellmadeIs(o, base, u.limits, mid.session.policy, samples);
    RequestsAre(HorizonOf(h), h.epoch, 0, samples);
    SentIsAdmitted(o, l, trip, Request(HorizonOf(h), h.epoch, 0, samples), Append);
    AppendVerdict(o, base, mid, HorizonOf(h), h.epoch, samples, trip.at);
  }

  /** Whose call is heard: the owner names itself. */
  predicate Claims(h: Host, owner: string) {
    owner != "" && h.owner == Some(owner)
  }

  /** When an append is accepted, in terms a caller can check beforehand: who
      asks, what the host validates, how the request travels, and what it meets. */
  ghost predicate AppendPasses(o: u32, u: Setup, s: System, owner: string, points: seq<Point>, beat: Option<u32>,
                               trip: Trip)
  {
    && s.host.state == Active && Claims(s.host, owner) && beat.Some? && s.host.tail.Some? && |points| > 0
    && AppendChecked(u.cfg, u.limits, points, beat.value, s.host.tail.value)
    && Received(s.ledger, trip)
    && EnoughLead(o, trip.at, AppendSamples(points, beat.value, s.host.tail.value)[0].tick, u.cfg.minimumLeadMs)
    && EndsInTime(AppendSamples(points, beat.value, s.host.tail.value), HorizonOf(s.host))
    && |BookAll(s.ledger, trip.meanwhile).exec.session.samples| + |points| <= QUEUE_CAPACITY
  }

  /** An accepted append passed the host's checks and was acknowledged. */
  lemma AppendWasSent(cfg: Config, limits: Limits, h: Host, l: Ledger, points: seq<Point>, base: u32, trip: Trip)
    requires h.tail.Some? && HostAppendAt(cfg, limits, h, l, points, base, trip).2 == Accepted
    ensures |points| > 0 && AppendChecked(cfg, limits, points, base, h.tail.value)
    ensures Received(l, trip)
  {
    hide SendBatch, PointsOk, HostTick, HostTickAfter, Distance, AppendRequest, FutureRoute, Received;
    if points != [] {
      SentIsReceived(l, trip, AppendRequest(HorizonOf(h), h.epoch, AppendSamples(points, base, h.tail.value)), Append);
    }
  }

  /** The whole of `append`, from any linked state. */
  lemma HostAppendsAreAccepted(o: u32, clock: u32, u: Setup, caps: HardCaps, s: System, owner: string,
                               points: seq<Point>, beat: Option<u32>, trip: Trip)
    requires Linked(o, clock, u, caps, s) && (beat.Some? ==> Prompt(o, clock, caps, beat.value, trip))
    ensures HostAppend(u.cfg, u.limits, s.host, s.ledger, owner, points, beat, trip).2 == Accepted
       <==> AppendPasses(o, u, s, owner, points, beat, trip)
  {
    hide Refines, InStep, HostAppendAt, Prompt, AppendChecked, AppendSamples, EnoughLead, EndsInTime;
    var h, l := s.host, s.ledger;
    if h.state == Active && Claims(h, owner) && beat.Some? && h.tail.Some? {
      if HostAppendAt(u.cfg, u.limits, h, l, points, beat.value, trip).2 == Accepted {
        AppendWasSent(u.cfg, u.limits, h, l, points, beat.value, trip);
      }
      if |points| > 0 && AppendChecked(u.cfg, u.limits, points, beat.value, h.tail.value) && Received(l, trip) {
        AppendsAreAccepted(o, clock, u, caps, s, points, beat.value, trip);
      }
    }
  }

  /** An append that passes the host's checks and finds the queue drained starts
      an allowed step from the anchor: the tail the host validates against is
      the sample the executor applied last. */
  lemma DrainedAppendStep(o: u32, clock: u32, u: Setup, caps: HardCaps, s: System, points: seq<Point>, base: u32,
                          trip: Trip)
    requires Linked(o, clock, u, caps, s) && s.host.state == Active && Prompt(o, clock, caps, base, trip)
    requires s.host.tail.Some? && |points| > 0 && AppendChecked(u.cfg, u.limits, points, base, s.host.tail.value)
    requires var mid := BookAll(s.ledger, trip.meanwhile).exec; mid.diag.state == Running && mid.session.samples == []
    ensures var mid := BookAll(s.ledger, trip.meanwhile).exec;
            && mid.anchor == s.host.tail.value
            && StepAllowed(mid.anchor, AppendSamples(points, base, s.host.tail.value)[0],
                           mid.session.policy.maximumStep)
  {
    hide Refines, InStep, TimelyRun, AppendChecked, AppendSamples, StepAllowed, Wellmade;
    var mid := BookAll(s.ledger, trip.meanwhile);
    OnArrival(o, clock, u, caps, s, base, trip);
    BaseInWindow(o, clock, u, caps, mid.exec.session.policy, base, trip);
    RefinesLater(o, clock, base, s.ledger);
    Meanwhile(o, base, s.ledger, trip);
    RouteEndsPlan(o, clock, u.cfg, s.host, s.ledger, s.beat);
    DrainedHoldsTail(o, trip.at, mid);
    AppendIsWellmade(o, base, u.cfg, u.limits, mid.exec.session.policy, points, s.host.tail.value);
  }

  lemma BaseInWindow(o: u32, clock: u32, u: Setup, caps: HardCaps, policy: Policy, base: u32, trip: Trip)
    requires Prompt(o, clock, caps, base, trip) && SentPolicy(u.cfg,
        policy) && policy.maximumLeadMs <= caps.maximumLeadMs
    ensures Since(o, base) + u.cfg.maximumLeadMs < TWO_31 && Since(o, base) <= Since(o, trip.at) < TWO_31
  {
    hide TimelyRun;
  }

  lemma WellmadeIs(o: u32, base: u32, limits: Limits, policy: Policy, samples: seq<Setpoint>)
    requires Wellmade(o, base, limits, policy, samples)
    ensures 0 < |samples| <= WIRE_MAX_SAMPLES && Ordered(o, samples) && BatchWithinLimits(limits, samples)
    ensures StepsAllowed(samples, policy.maximumStep)
    ensures forall i :: 0 <= i < |samples| ==> Since(o, samples[i].tick) <= Since(o, base) + policy.maximumLeadMs
  {
  }

  /** The first batch of a stream just opened, whatever the horizon: accepted
      exactly when it arrives and is answered, its first sample has the minimum
      lead on arrival and its last one does not pass the horizon. */
  lemma FirstBatchIsAccepted(o: u32, base: u32, u: Setup, l: Ledger, epoch: u32, horizon: u32, first: seq<Setpoint>,
                             trip: Trip)
    requires var mid := BookAll(l, trip.meanwhile).exec;
             && mid.diag.state == Priming && mid.session.samples == [] && mid.limits == u.limits
             && mid.session.open && !mid.session.epochEstablished && mid.session.horizonEndTick == horizon
             && SentPolicy(u.cfg, mid.session.policy)
             && Wellmade(o, base, u.limits, mid.session.policy, first)
    requires Since(o, base) <= Since(o, trip.at) < TWO_31
    ensures |first| > 0
    ensures SendBatch(l, trip, AppendRequest(horizon, epoch, first), Append).1
       <==> && trip.arrives && trip.answered && EnoughLead(o, trip.at, first[0].tick, u.cfg.minimumLeadMs)
            && EndsInTime(first, horizon)
  {
    hide SendBatch, ExecAdmitBatch, Wellmade, AsHostBatch, AppendRequest, SpliceRequest, Ordered;
    var mid := BookAll(l, trip.meanwhile).exec;
    WellmadeIs(o, base, u.limits, mid.session.policy, first);
    NothingQueued(o, mid);
    RequestsAre(horizon, epoch, 0, first);
    SentIsReceived(l, trip, AppendRequest(horizon, epoch, first), Append);
    if trip.arrives && trip.answered {
      SentIsAdmitted(o, l, trip, Request(horizon, epoch, 0, first), Append);
    }
    AppendVerdict(o, base, mid, horizon, epoch, first, trip.at);
  }

  lemma NothingQueued(o: u32, e: Executor)
    requires e.session.samples == []
    ensures Ordered(o, e.session.samples)
  {
  }

  /** The samples of a splice that passed the host's checks are well made, and
      start at the splice tick. */
  lemma SpliceRoute(o: u32, base: u32, cfg: Config, limits: Limits, policy: Policy, points: seq<Point>, offset: int,
                    shift: nat, from: Vec)
    requires 0 < |points| <= WIRE_MAX_SAMPLES - 1
    requires SentPolicy(cfg, policy) && PointsOk(cfg, limits, points, Some(from), points[0].offset - offset)
    requires 0 <= offset && WithinLimits(limits, from)
    requires points[|points| - 1].offset + shift <= cfg.maximumLeadMs
    requires Since(o, base) + cfg.maximumLeadMs < TWO_31
    ensures Since(o, HostTick(base, offset + shift)) == Since(o, base) + offset + shift
    ensures Wellmade(o, base, limits, policy, [Setpoint(HostTick(base, offset + shift), from)] + Placed(points, base,
        shift))
  {
    hide HostTick, StepFits, WithinLimits, StepAllowed, Ordered, StepsAllowed, BatchWithinLimits;
    var route := Placed(points, base, shift);
    var start := Setpoint(HostTick(base, offset + shift), from);
    var all := [start] + route;
    RouteIsWellmade(o, base, cfg, limits, policy, points, Some(from), points[0].offset - offset, shift);
    RouteTicks(o, base, cfg, limits, points, Some(from), points[0].offset - offset, shift);
    assert PointOk(cfg, limits, points, Some(from), points[0].offset - offset, 0);
    TickPlaced(o, base, offset + shift);
    StepPlaced(o, cfg, policy, start, route[0], points[0].offset - offset);
    StartThenRoute(o, limits, policy, start, route);
  }

  lemma StartThenRoute(o: u32, limits: Limits, policy: Policy, start: Setpoint, route: seq<Setpoint>)
    requires |route| > 0 && Ordered(o, route) && BatchWithinLimits(limits, route) && StepsAllowed(route,
        policy.maximumStep)
    requires Since(o, start.tick) < Since(o, route[0].tick) && WithinLimits(limits, start.pos)
    requires StepAllowed(start, route[0], policy.maximumStep)
    ensures var all := [start] + route;
            Ordered(o, all) && BatchWithinLimits(limits, all) && StepsAllowed(all, policy.maximumStep)
  {
    hide StepAllowed, WithinLimits;
    var all := [start] + route;
    OrderedConcat(o, [start], route);
    forall i | 0 < i < |all|
      ensures StepAllowed(all[i - 1], all[i], policy.maximumStep)
    {
      if 1 < i {
        assert all[i - 1] == route[i - 2] && all[i] == route[i - 1];
      }
    }
  }

  /** A splice that passes all the host's own checks. */
  ghost predicate SpliceChecked(cfg: Config, limits: Limits, h: Host, points: seq<Point>, offset: int, base: u32)
    requires h.tail.Some?
  {
    && SpliceArgumentsOk(cfg, limits, points, offset)
    && points[|points| - 1].offset + SpliceShift(HostTick(base, offset), h.tail.value.tick) <= cfg.maximumLeadMs
    && !HostTickAfter(SpliceTick(h, base, offset), h.tail.value.tick)
    && var continuity := InterpolateRoute(FutureRoute(h.route, base), SpliceTick(h, base, offset));
       continuity.Some? && PointsOk(cfg, limits, points, continuity, points[0].offset - offset)
  }

  lemma SpliceIsSent(cfg: Config, limits: Limits, h: Host, l: Ledger, points: seq<Point>, offset: int, base: u32,
                     trip: Trip)
    requires h.tail.Some? && |points| > 0 && SpliceChecked(cfg, limits, h, points, offset, base)
    ensures HostSpliceAt(cfg, limits, h, l, points, offset, base, trip).2 == Accepted
       <==> SendBatch(l, trip, SpliceRequest(NextEpoch(h.epoch), SpliceTick(h, base, offset),
                                             SpliceSamples(h, points, base, offset)), Splice).1
  {
    hide SendBatch, PointsOk, HostTick, HostTickAfter, SpliceRequest, FutureRoute, InterpolateRoute, SpliceArgumentsOk;
  }

  /** Interpolating inside limits stays inside them. */
  lemma InterpolationWithinLimits(o: u32, limits: Limits, queue: seq<Setpoint>, tick: u32)
    requires Ordered(o, queue) && Since(o, tick) < TWO_31 && BatchWithinLimits(limits, queue)
    requires Interpolate(queue, tick).Some?
    ensures WithinLimits(limits, Interpolate(queue, tick).value)
  {
    hide LerpVec, WithinLimits;
    InterpolateAnswers(o, queue, tick);
    var i := CoverExists(o, queue, tick, |queue|);
    ScanFinds(o, queue, i, tick, 0);
    if queue[i].tick != tick {
      HalfWindow(o, queue[i + 1].tick, queue[i].tick);
      HalfWindow(o, tick, queue[i].tick);
      LerpWithinLimits(limits, queue[i].pos, queue[i + 1].pos, Sub32(tick, queue[i].tick),
                       Sub32(queue[i + 1].tick, queue[i].tick));
    }
  }

  /** The MCU's interpolation, where it answers, is the host's continuity point
      and lies inside the limits. */
  lemma ContinuityOnArrival(o: u32, clock: u32, u: Setup, caps: HardCaps, s: System, base: u32, trip: Trip, at: u32)
    requires Linked(o, clock, u, caps, s) && s.host.state == Active && Prompt(o, clock, caps, base, trip)
    requires Since(o, at) < TWO_31 && InterpolateRoute(FutureRoute(s.host.route, base), at).Some?
    ensures var there := Interpolate(BookAll(s.ledger, trip.meanwhile).exec.session.samples, at);
            there.Some? ==> && there == InterpolateRoute(FutureRoute(s.host.route, base), at)
                            && WithinLimits(u.limits, there.value)
  {
    hide Refines, InStep, InterpolateFrom, Interpolate, InterpolateRoute, FutureRoute, TimelyRun, WithinLimits, Sound;
    var h, l := s.host, s.ledger;
    var mid := BookAll(l, trip.meanwhile);
    RefinesLater(o, clock, base, l);
    Meanwhile(o, base, l, trip);
    PlanOrdered(o, clock, l);
    PlanOrdered(o, trip.at, mid);
    QueueInPlan(o, trip.at, mid);
    BeatBefore(o, clock, u.cfg, h, l, s.beat);
    RouteFromPlan(o, clock, u.cfg, h, l, s.beat, base);
    BothFromPlan(o, l.plan, |mid.applied|, mid.exec.session.samples, base, at);
    RefinesSound(o, trip.at, mid);
    SoundLimits(mid.exec);
    if Interpolate(mid.exec.session.samples, at).Some? {
      InterpolationWithinLimits(o, u.limits, mid.exec.session.samples, at);
    }
  }

  lemma SoundLimits(e: Executor)
    requires Sound(e)
    ensures BatchWithinLimits(e.limits, e.session.samples)
  {
  }

  /** Where the splice tick and its samples lie. */
  lemma SpliceIsWellmade(o: u32, base: u32, cfg: Config, limits: Limits, policy: Policy, h: Host, points: seq<Point>,
                         offset: int)
    requires h.tail.Some? && |points| > 0 && SpliceChecked(cfg, limits, h, points, offset, base) && SentPolicy(cfg,
        policy)
    requires Since(o, base) + cfg.maximumLeadMs < TWO_31 && Since(o, h.tail.value.tick) < TWO_31
    ensures var at := SpliceTick(h, base, offset);
            && Since(o, at) <= Since(o, h.tail.value.tick)
            && (WithinLimits(limits, InterpolateRoute(FutureRoute(h.route, base), at).value) ==>
                  Wellmade(o, base, limits, policy, SpliceSamples(h, points, base, offset)))
  {
    hide PointsOk, HostTick, HostTickAfter, TickAfter, Wellmade, InterpolateRoute, FutureRoute, WithinLimits;
    var shift := SpliceShift(HostTick(base, offset), h.tail.value.tick);
    var at := SpliceTick(h, base, offset);
    var continuity := InterpolateRoute(FutureRoute(h.route, base), at);
    RouteTicks(o, base, cfg, limits, points, continuity, points[0].offset - offset, shift);
    TickPlaced(o, base, offset + shift);
    TickOrdersAgree(at, h.tail.value.tick);
    HalfWindow(o, at, h.tail.value.tick);
    if WithinLimits(limits, continuity.value) {
      SpliceRoute(o, base, cfg, limits, policy, points, offset, shift, continuity.value);
    }
  }

  /** A splice where the MCU cannot interpolate is refused. */
  lemma NoPosition(e: Executor, b: Batch, at: u32)
    requires 0 < |b.samples| <= WIRE_MAX_SAMPLES && Interpolate(e.session.samples, b.spliceAtTick).None?
    ensures ExecAdmitBatch(e, b, Splice, at).1 != Done
  {
    hide Interpolate, BatchWithinLimits, BatchVerdict;
  }

  /** Every splice that passes the host's own checks is accepted exactly when
      the stream is open-ended, its tick is not the reserved tick zero, still has both leads on arrival,
      is not before the MCU's first queued sample, and the queue has room after
      the cut. The step check at the splice never refuses it. */
  lemma SplicesAreAccepted(o: u32, clock: u32, u: Setup, caps: HardCaps, s: System, points: seq<Point>, offset: int,
                           base: u32, trip: Trip)
    requires Linked(o, clock, u, caps, s) && s.host.state == Active && Prompt(o, clock, caps, base, trip)
    requires s.host.tail.Some? && |points| > 0
    requires SpliceChecked(u.cfg, u.limits, s.host, points, offset, base)
    requires trip.arrives && trip.answered
    requires BookAll(s.ledger, trip.meanwhile).exec.diag.state in {Priming, Running}
    ensures var queue := BookAll(s.ledger, trip.meanwhile).exec.session.samples;
            var at := SpliceTick(s.host, base, offset);
            (HostSpliceAt(u.cfg, u.limits, s.host, s.ledger, points, offset, base, trip).2 == Accepted
             <==> && HorizonOf(s.host) == 0 && at != 0
                  && EnoughLead(o, trip.at, at, u.cfg.minimumLeadMs) && EnoughLead(o, trip.at, at,
                      MINIMUM_SPLICE_LEAD_MS)
                  && queue != [] && Since(o, queue[0].tick) <= Since(o, at)
                  && RetainedFrom(queue, at, 0) + 1 + |points| <= QUEUE_CAPACITY)
  {
    hide Linked, SpliceChecked, TripTimely, SendBatch, ExecAdmitBatch, Wellmade, InterpolateRoute, FutureRoute,
         Interpolate,
         AsHostBatch, AppendRequest, SpliceRequest, Ordered, HostSpliceAt, SpliceTick, SpliceSamples, WithinLimits,
             Placed;
    var h, l := s.host, s.ledger;
    var mid := BookAll(l, trip.meanwhile).exec;
    var queue, at := mid.session.samples, SpliceTick(h, base, offset);
    OnArrival(o, clock, u, caps, s, base, trip);
    BaseInWindow(o, clock, u, caps, mid.session.policy, base, trip);
    SpliceIsSent(u.cfg, u.limits, h, l, points, offset, base, trip);
    SpliceIsWellmade(o, base, u.cfg, u.limits, mid.session.policy, h, points, offset);
    SpliceShape(u.cfg, u.limits, h, points, offset, base);
    ContinuityOnArrival(o, clock, u, caps, s, base, trip, at);
    InterpolateAnswers(o, queue, at);
    var samples := SpliceSamples(h, points, base, offset);
    RequestsAre(0, NextEpoch(h.epoch), at, samples);
    var b := Request(0, NextEpoch(h.epoch), at, samples);
    if HorizonOf(h) != 0 {
      FiniteIsNotSpliced(o, clock, u, caps, s, base, trip, at, NextEpoch(h.epoch), samples);
    } else if at == 0 {
      ZeroSplice(l, trip, NextEpoch(h.epoch), samples);
    } else if Interpolate(queue, at).None? {
      NoPositionSent(l, trip, b);
    } else {
      WellmadeIs(o, base, u.limits, mid.session.policy, samples);
      SentIsAdmitted(o, l, trip, b, Splice);
      SpliceVerdict(o, base, mid, NextEpoch(h.epoch), samples, trip.at);
    }
  }

  lemma FiniteIsNotSpliced(o: u32, clock: u32, u: Setup, caps: HardCaps, s: System, base: u32, trip: Trip, at: u32,
                           epoch: u32, samples: seq<Setpoint>)
    requires Linked(o, clock, u, caps, s) && s.host.state == Active && Prompt(o, clock, caps, base, trip)
    requires HorizonOf(s.host) != 0 && samples != [] && samples[0].tick == at && epoch != s.host.epoch
    ensures !SendBatch(s.ledger, trip, SpliceRequest(epoch, at, samples), Splice).1
  {
    hide Refines, InStep, SendBatch, TripTimely, SpliceRequest, FutureRoute, RetainedRoute, Before;
    SpliceInStep(o, clock, u.cfg, s.host, s.ledger, s.beat, base, trip, at, epoch, samples, s.host);
  }

  /** When a splice is accepted, in terms a caller can check beforehand. */
  ghost predicate SplicePasses(o: u32, u: Setup, s: System, owner: string, points: seq<Point>, offset: int,
                               beat: Option<u32>, trip: Trip)
  {
    var queue := BookAll(s.ledger, trip.meanwhile).exec.session.samples;
    && s.host.state == Active && Claims(s.host, owner) && beat.Some? && s.host.tail.Some? && |points| > 0
    && SpliceChecked(u.cfg, u.limits, s.host, points, offset, beat.value)
    && Received(s.ledger, trip) && HorizonOf(s.host) == 0
    && var at := SpliceTick(s.host, beat.value, offset);
       && at != 0
       && EnoughLead(o, trip.at, at, u.cfg.minimumLeadMs) && EnoughLead(o, trip.at, at, MINIMUM_SPLICE_LEAD_MS)
       && queue != [] && Since(o, queue[0].tick) <= Since(o, at)
       && RetainedFrom(queue, at, 0) + 1 + |points| <= QUEUE_CAPACITY
  }

  /** An accepted splice passed the host's checks and was acknowledged. */
  lemma SpliceWasReceived(cfg: Config, limits: Limits, h: Host, l: Ledger, points: seq<Point>, offset: int, base: u32,
                          trip: Trip)
    requires h.tail.Some? && |points| > 0 && SpliceArgumentsOk(cfg, limits, points, offset)
    requires HostSpliceAt(cfg, limits, h, l, points, offset, base, trip).2 == Accepted
    ensures SpliceChecked(cfg, limits, h, points, offset, base) && Received(l, trip)
  {
    hide SendBatch, PointsOk, HostTick, HostTickAfter, SpliceRequest, FutureRoute, InterpolateRoute, SpliceArgumentsOk,
         Received;
    var at := SpliceTick(h, base, offset);
    if InterpolateRoute(FutureRoute(h.route, base), at).Some? {
      SentIsReceived(l, trip, SpliceRequest(NextEpoch(h.epoch), at, SpliceSamples(h, points, base, offset)), Splice);
    }
  }

  /** The whole of `splice`, from any linked state. */
  lemma HostSplicesAreAccepted(o: u32, clock: u32, u: Setup, caps: HardCaps, s: System, owner: string,
                               points: seq<Point>, offset: int, beat: Option<u32>, trip: Trip)
    requires Linked(o, clock, u, caps, s) && (beat.Some? ==> Prompt(o, clock, caps, beat.value, trip))
    ensures HostSplice(u.cfg, u.limits, s.host, s.ledger, owner, points, offset, beat, trip).2 == Accepted
       <==> SplicePasses(o, u, s, owner, points, offset, beat, trip)
  {
    hide Refines, InStep, HostSpliceAt, Prompt, SpliceTick, EnoughLead, PointsOk, InterpolateRoute, FutureRoute,
         HostTick, HostTickAfter, Interpolate;
    var h, l := s.host, s.ledger;
    if h.state == Active && Claims(h, owner) && beat.Some? && h.tail.Some?
       && SpliceArgumentsOk(u.cfg, u.limits, points, offset) {
      if HostSpliceAt(u.cfg, u.limits, h, l, points, offset, beat.value, trip).2 == Accepted {
        SpliceWasReceived(u.cfg, u.limits, h, l, points, offset, beat.value, trip);
      }
      if SpliceChecked(u.cfg, u.limits, h, points, offset, beat.value) && Received(l, trip) {
        SplicesAreAccepted(o, clock, u, caps, s, points, offset, beat.value, trip);
      }
    }
  }

  /** The shift puts the splice tick on the tail's grid. */
  lemma SpliceOnGrid(h: Host, base: u32, offset: int)
    requires h.tail.Some?
    ensures Sub32(h.tail.value.tick, SpliceTick(h, base, offset)) % CONTROL_TICK_MS == 0
  {
    hide HostTick, Distance, Sub32, Add32;
    var raw, tail := HostTick(base, offset), h.tail.value.tick;
    DistanceIsSub(tail, raw);
    ShiftedTick(base, offset, SpliceShift(raw, tail));
    ShiftsOntoGrid(raw, tail);
  }

  lemma ShiftsOntoGrid(raw: u32, tail: u32)
    ensures Sub32(tail, Add32(raw, Sub32(tail, raw) % CONTROL_TICK_MS)) % CONTROL_TICK_MS == 0
  {
    var d := Sub32(tail, raw);
    var shift := d % CONTROL_TICK_MS;
    assert Sub32(tail, Add32(raw, shift)) == d - shift;
  }

  lemma ShiftedTick(base: u32, offset: int, shift: nat)
    requires shift < CONTROL_TICK_MS
    ensures HostTick(base, offset + shift) == Add32(HostTick(base, offset), shift)
  {
    var raw, q := (base + offset) % TWO_32, (base + offset) / TWO_32;
    assert base + offset == q * TWO_32 + raw;
    if raw + shift < TWO_32 {
      assert base + (offset + shift) == q * TWO_32 + (raw + shift);
    } else {
      assert base + (offset + shift) == (q + 1) * TWO_32 + (raw + shift - TWO_32);
    }
  }

  /** An accepted splice of the host continues the MCU's line on its grid: it is
      one a paced run may hold. */
  lemma HostSplicesContinue(o: u32, clock: u32, u: Setup, caps: HardCaps, s: System, points: seq<Point>, offset: int,
                            base: u32, trip: Trip)
    requires Linked(o, clock, u, caps, s) && s.host.state == Active && Prompt(o, clock, caps, base, trip)
    requires |points| > 0 && s.host.tail.Some?
    requires HostSpliceAt(u.cfg, u.limits, s.host, s.ledger, points, offset, base, trip).2 == Accepted
    ensures InterpolateRoute(FutureRoute(s.host.route, base), SpliceTick(s.host, base, offset)).Some?
    ensures var sent := EncodeBatch(SpliceRequest(NextEpoch(s.host.epoch), SpliceTick(s.host, base, offset),
                                                  SpliceSamples(s.host, points, base, offset)), Splice);
            sent.Some? && Continues(BookAll(s.ledger, trip.meanwhile).exec, sent.value)
  {
    hide Linked, Prompt, HostSpliceAt, SpliceTick, InterpolateRoute, FutureRoute, Interpolate, EncodeBatch, DecodeBatch,
         SpliceRequest, Seamless, Placed, AsHostBatch, WireOrdered;
    var h, at := s.host, SpliceTick(s.host, base, offset);
    var mid := BookAll(s.ledger, trip.meanwhile);
    SpliceWasSent(u.cfg, u.limits, h, s.ledger, points, offset, base, trip);
    HostSplicesAreSeamless(o, clock, u, caps, s, points, offset, base, trip);
    var samples := SpliceSamples(h, points, base, offset);
    RequestsAre(0, NextEpoch(h.epoch), at, samples);
    var b := Request(0, NextEpoch(h.epoch), at, samples);
    var sent := EncodeBatch(AsHostBatch(b), Splice);
    AcknowledgedEncodes(s.ledger, trip, AsHostBatch(b), Splice);
    BatchWire(b, Splice, sent.value);
    ArrivesAtTail(o, clock, u, caps, s, base, trip);
    SpliceOnGrid(h, base, offset);
  }

  lemma AcknowledgedEncodes(l: Ledger, trip: Trip, b: HostBatch, kind: Kind)
    requires SendBatch(l, trip, b, kind).1
    ensures EncodeBatch(b, kind).Some?
  {
  }

  lemma ArrivesAtTail(o: u32, clock: u32, u: Setup, caps: HardCaps, s: System, base: u32, trip: Trip)
    requires Linked(o, clock, u, caps, s) && s.host.state == Active && Prompt(o, clock, caps, base, trip)
    ensures var queue := BookAll(s.ledger, trip.meanwhile).exec.session.samples;
            queue != [] ==> s.host.tail == Some(queue[|queue| - 1])
  {
    hide Refines, TimelyRun, InStep, Ordered, Terms;
    RefinesLater(o, clock, base, s.ledger);
    Meanwhile(o, base, s.ledger, trip);
    QueueOnArrival(o, clock, u, caps, s, BookAll(s.ledger, trip.meanwhile), trip.at);
  }

  lemma SpliceShape(cfg: Config, limits: Limits, h: Host, points: seq<Point>, offset: int, base: u32)
    requires h.tail.Some? && |points| > 0 && SpliceChecked(cfg, limits, h, points, offset, base)
    ensures var at := SpliceTick(h, base, offset);
            var continuity := InterpolateRoute(FutureRoute(h.route, base), at);
            && continuity.Some?
            && var samples := SpliceSamples(h, points, base, offset);
               |samples| == 1 + |points| <= WIRE_MAX_SAMPLES && samples[0] == Setpoint(at, continuity.value)
  {
    hide PointsOk, HostTick, HostTickAfter, InterpolateRoute, FutureRoute;
  }

  lemma ZeroSplice(l: Ledger, trip: Trip, epoch: u32, samples: seq<Setpoint>)
    ensures !SendBatch(l, trip, SpliceRequest(epoch, 0, samples), Splice).1
  {
  }

  lemma NoPositionSent(l: Ledger, trip: Trip, b: Batch)
    requires 0 < |b.samples| <= WIRE_MAX_SAMPLES && b.firstApplyTick == b.samples[0].tick
    requires Interpolate(BookAll(l, trip.meanwhile).exec.session.samples, b.spliceAtTick).None?
    ensures !SendBatch(l, trip, AsHostBatch(b), Splice).1
  {
    hide EncodeBatch, DecodeBatch, ExecAdmitBatch, AsHostBatch, Interpolate, WireOrdered;
    var encoded := EncodeBatch(AsHostBatch(b), Splice);
    if encoded.Some? {
      BatchWire(b, Splice, encoded.value);
      NoPosition(BookAll(l, trip.meanwhile).exec, b, trip.at);
    }
  }

  // ---- The first batch of a start ----

  /** A stream just opened does not start before its first batch. */
  lemma PrimingWaits(l: Ledger, event: Event)
    requires l.exec.diag.state == Priming && l.exec.session.samples == [] && OwnEvent(event)
    requires 1 <= l.exec.session.policy.minimumStartSamples
    ensures Book(l, event).exec == l.exec
  {
    hide WithinLimits, AnchorReaches;
  }

  lemma {:induction false} PrimingWaitsOn(l: Ledger, events: seq<Event>)
    requires l.exec.diag.state == Priming && l.exec.session.samples == []
    requires forall i :: 0 <= i < |events| ==> OwnEvent(events[i])
    requires 1 <= l.exec.session.policy.minimumStartSamples
    ensures BookAll(l, events).exec == l.exec
    decreases |events|
  {
    hide Book, OwnEvent;
    if events != [] {
      PrimingWaits(l, events[0]);
      PrimingWaitsOn(Book(l, events[0]), events[1..]);
    }
  }

  /** An acknowledged open leaves the MCU priming with an empty queue. */
  lemma OpenPrimes(l: Ledger, trip: Trip, p: HostPolicy)
    requires SendOpen(l, trip, p).1
    ensures var after := SendOpen(l, trip, p).0.exec;
            && after.diag.state == Priming && after.session.samples == []
            && 1 <= after.session.policy.minimumStartSamples
  {
    hide DecodePolicy, EncodeOpen, JointPolicyVerdict;
    var encoded := EncodeOpen(p);
    var policy := PolicySent(p);
    OpenWire(policy, encoded.value);
  }

  /** Once its open is acknowledged, a start is accepted exactly when its first
      batch arrives and is answered, still has the minimum lead and does not
      pass the horizon. */
  lemma StartsAreAccepted(o: u32, clock: u32, u: Setup, caps: HardCaps, h: Host, l: Ledger, first: seq<Setpoint>,
                          later: seq<Setpoint>, finite: bool, base: u32, opening: Trip, trip: Trip)
    requires Refines(o, clock, l) && l.exec.limits == u.limits && l.exec.caps == caps
    requires Prompt(o, clock, caps, base, opening) && TripTimely(o, opening.at, caps, trip)
    requires first != []
    requires var horizon := if finite then (first + later)[|first + later| - 1].tick else 0;
             && SendOpen(l, opening, PolicyRequest(u.cfg, horizon)).1
             && forall policy :: SentPolicy(u.cfg, policy) ==> Wellmade(o, base, u.limits, policy, first)
    ensures HostOpen(u.cfg, h, l, first, later, finite, opening, trip).2 == Accepted
       <==> && trip.arrives && trip.answered && EnoughLead(o, trip.at, first[0].tick, u.cfg.minimumLeadMs)
            && EndsInTime(first, if finite then (first + later)[|first + later| - 1].tick else 0)
  {
    hide Refines, SendBatch, SendOpen, PolicyRequest, AppendRequest, Wellmade, TimelyRun, OwnEvent, EnoughLead,
         SentPolicy, EndsInTime;
    var all := first + later;
    var horizon := if finite then all[|all| - 1].tick else 0;
    var request := PolicyRequest(u.cfg, horizon);
    var ready := SendOpen(l, opening, request).0;
    RefinesLater(o, clock, base, l);
    OpenDelivered(o, base, l, opening, request);
    OpenPrimes(l, opening, request);
    PrimingWaitsOn(ready, trip.meanwhile);
    PolicyIsSent(u.cfg, horizon, ready.exec.session.policy);
    RequestHorizon(u.cfg, horizon);
    FirstBatchIsAccepted(o, base, u, ready, h.epoch, horizon, first, trip);
  }

  /** When the MCU acknowledges an open: it arrives, is answered, finds no stream
      running, and carries a policy inside the hard caps. */
  ghost predicate OpenPasses(l: Ledger, trip: Trip, p: HostPolicy, caps: HardCaps) {
    && trip.arrives && trip.answered && BookAll(l, trip.meanwhile).exec.diag.state != Running
    && PolicyEncodes(p) && HostPolicyOk(p, caps, trip.at)
  }

  lemma OpenIsAnswered(o: u32, clock: u32, l: Ledger, trip: Trip, p: HostPolicy)
    requires Refines(o, clock, l) && TripTimely(o, clock, l.exec.caps, trip) && p.armMask == ARM_MASK_BOTH
    ensures SendOpen(l, trip, p).1 <==> OpenPasses(l, trip, p, l.exec.caps)
  {
    hide Refines, TripTimely, PolicyBytes, ValidatePolicy, HostPolicyOk, DecodePolicy, Terms;
    if PolicyEncodes(p) {
      var policy := PolicySent(p);
      var encoded := EncodeOpen(p).value;
      OpenWire(policy, encoded);
      Meanwhile(o, clock, l, trip);
      PolicyValidatorsAgree(policy, l.exec.caps, trip.at);
    }
  }

  lemma RequestHorizon(cfg: Config, horizon: u32)
    ensures PolicyRequest(cfg, horizon).horizonEndTick == horizon
  {
  }
}
