/** The finite-plan feeder: what has been sent followed by what is pending is
    the validated plan, and every batch it sends is one the firmware's contract
    accepts while it is on time and there is room. */
module Feeder {
  import opened Words
  import opened StreamContract
  import opened StreamSession
  import opened StreamExecutor
  import opened ExecutorRuns
  import opened Timeline
  import opened PlanRefinement
  import opened WireCodec
  import opened HostAdapter
  import opened HostSimulation
  import opened HostRuns
  import opened HostGuarantees
  import opened HostAdmission
  import opened StartAdmission

  // ---- Conservation ----

  /** While active: sent ++ pending is the plan, under the plan's horizon. */
  ghost predicate Feeding(s: System, full: seq<Setpoint>, epoch: u32) {
    s.host.state == Active ==>
      && s.ledger.plan + s.host.pending == full && full != []
      && s.host.horizon == Some(full[|full| - 1].tick) && s.host.epoch == epoch
  }

  /** An accepted finite start feeds the plan it validated. */
  lemma StartFeeds(o: u32, clock: u32, u: Setup, caps: HardCaps, s: System, a: Action)
    requires Linked(o, clock, u, caps, s) && a.StartAction? && a.finite && ActionTimely(o, clock, caps, a)
    requires HostStart(u.cfg, u.limits, u.authorized, s.host, s.ledger, a.owner, a.points, true, a.anchor, a.enabled,
                       a.beat, a.opening, a.trip).2 == Accepted
    ensures a.beat.Some?
    ensures var next := Perform(u, s, a);
            Feeding(next, Placed(a.points, a.beat.value, 0), next.host.epoch)
    ensures |a.points| > 0
    ensures Since(o, a.beat.value) + a.points[|a.points| - 1].offset < TWO_31 ==>
              GoodPlan(o, u.cfg, u.limits, Placed(a.points, a.beat.value, 0))
  {
    hide Refines, InStep, HostOpen, TripTimely, FinitePlanOk, Placed, GoodPlan;
    var h := s.host;
    var h1 := if h.armed then h else h.(prepared := a.anchor);
    var count := FirstRoute(u.cfg, u.limits, a.points, true, h1.prepared.value).value;
    var claimed := Claim(h1, a.owner).value;
    var h2 := claimed.(armed := true, epoch := if h1.owner.Some? then NextEpoch(h1.epoch) else claimed.epoch);
    var first, later := Placed(a.points[..count], a.beat.value, 0), Placed(a.points[count..], a.beat.value, 0);
    OpenInStep(o, clock, u.cfg, h2, s.ledger, first, later, true, a.beat.value, a.opening, a.trip);
    PlacedSplits(a.points, count, a.beat.value);
    OpenNeedsSamples(u.cfg, h2, s.ledger, first, later, a.opening, a.trip);
    assert FinitePlanOk(u.cfg, u.limits, a.points, h1.prepared.value);
    FinitePlanHasPoints(u.cfg, u.limits, a.points, h1.prepared.value);
    if Since(o, a.beat.value) + a.points[|a.points| - 1].offset < TWO_31 {
      FinitePlanIsGood(o, a.beat.value, u.cfg, u.limits, a.points, h1.prepared.value);
    }
  }

  lemma OpenNeedsSamples(cfg: Config, h: Host, l: Ledger, first: seq<Setpoint>, later: seq<Setpoint>, opening: Trip,
                         trip: Trip)
    ensures HostOpen(cfg, h, l, first, later, true, opening, trip).2 == Accepted ==> first + later != []
  {
    hide SendOpen, SendBatch, PolicyRequest, AppendRequest;
  }

  /** How many samples a turn of the feeder may send. */
  function PumpCount(cfg: Config, h: Host, base: u32): (n: nat)
    ensures n <= |h.pending|
  {
    ReadyCount(cfg, h.pending, base, CountLimit(|FutureRoute(h.route, base)|), 0)
  }

  /** A turn of the feeder either sends the ready part of what is pending, and
      it is acknowledged, or leaves everything, or faults. */
  lemma PumpShape(cfg: Config, h: Host, l: Ledger, beat: Option<u32>, trip: Trip)
    ensures var (h', after, answer) := HostPump(cfg, h, l, beat, trip);
            && (answer != Accepted ==> h'.state == Faulted)
            && (answer == Accepted && (h' != h || after != l) ==>
                  && beat.Some?
                  && var n := PumpCount(cfg, h, beat.value);
                     && 0 < n
                     && SendBatch(l, trip, AppendRequest(HorizonOf(h), h.epoch, h.pending[..n]), Append) == (after,
                         true)
                     && h' == h.(route := FutureRoute(h.route, beat.value) + h.pending[..n],
                                 tail := Some(h.pending[n - 1]), pending := h.pending[n..]))
  {
    hide SendBatch, HostTickAfter, Distance, FutureRoute, AppendRequest;
  }

  /** One turn of the feeder moves samples from pending to sent, in order. */
  lemma PumpFeeds(o: u32, clock: u32, u: Setup, caps: HardCaps, s: System, beat: Option<u32>, trip: Trip)
    requires Linked(o, clock, u, caps, s) && s.host.state == Active
    requires beat.Some? ==> Prompt(o, clock, caps, beat.value, trip)
    ensures var (h, after, answer) := HostPump(u.cfg, s.host, s.ledger, beat, trip);
            answer == Accepted ==>
              && after.plan + h.pending == s.ledger.plan + s.host.pending
              && h.horizon == s.host.horizon && h.epoch == s.host.epoch && h.owner == s.host.owner
    ensures HostPump(u.cfg, s.host, s.ledger, beat, trip).2 != Accepted ==>
              HostPump(u.cfg, s.host, s.ledger, beat, trip).0.state == Faulted
  {
    hide Refines, InStep, SendBatch, Prompt, FutureRoute, HostPump, PumpCount, AppendRequest;
    var (h, after, answer) := HostPump(u.cfg, s.host, s.ledger, beat, trip);
    PumpShape(u.cfg, s.host, s.ledger, beat, trip);
    if answer == Accepted && (h != s.host || after != s.ledger) {
      var n := PumpCount(u.cfg, s.host, beat.value);
      var ready := s.host.pending[..n];
      AppendInStep(o, clock, u.cfg, s.host, s.ledger, s.beat, beat.value, trip, ready, h);
      assert s.host.pending == ready + s.host.pending[n..];
      assert s.ledger.plan + ready + s.host.pending[n..] == s.ledger.plan + (ready + s.host.pending[n..]);
    }
  }

  /** What puts something else than the plan into the stream: an append, a
      splice or a start that passes, in terms of the call and of the state it
      meets. */
  ghost predicate Interferes(o: u32, u: Setup, caps: HardCaps, s: System, a: Action) {
    match a
    case AppendAction(owner, points, beat, trip) => AppendPasses(o, u, s, owner, points, beat, trip)
    case SpliceAction(owner, points, offset, beat, trip) => SplicePasses(o, u, s, owner, points, offset, beat, trip)
    case StartAction(_, _, _, _, _, _, _, _) => StartPasses(o, u, caps, s, a)
    case _ => false
  }

  /** Those are the appends, splices and starts that are accepted. */
  lemma InterferesWhenAccepted(o: u32, clock: u32, u: Setup, caps: HardCaps, s: System, a: Action)
    requires Linked(o, clock, u, caps, s) && ActionTimely(o, clock, caps, a)
    ensures Interferes(o, u, caps, s, a)
       <==> (a.AppendAction? || a.SpliceAction? || a.StartAction?) && AnswerOf(u, s, a) == Accepted
  {
    hide Linked, Prompt, AppendPasses, SplicePasses, StartPasses, HostAppend, HostSplice, HostStart;
    match a
    case AppendAction(owner, points, beat, trip) =>
      HostAppendsAreAccepted(o, clock, u, caps, s, owner, points, beat, trip);
    case SpliceAction(owner, points, offset, beat, trip) =>
      HostSplicesAreAccepted(o, clock, u, caps, s, owner, points, offset, beat, trip);
    case StartAction(_, _, _, _, _, _, _, _) => HostStartsAreAccepted(o, clock, u, caps, s, a);
    case _ =>
  }

  /** An accepted append puts samples behind the plan. */
  lemma AppendBreaks(o: u32, clock: u32, u: Setup, caps: HardCaps, s: System, a: Action, full: seq<Setpoint>,
                     epoch: u32)
    requires Linked(o, clock, u, caps, s) && ActionTimely(o, clock, caps, a) && a.AppendAction?
    requires s.host.state == Active && Feeding(s, full, epoch) && AnswerOf(u, s, a) == Accepted
    ensures !Feeding(Perform(u, s, a), full, epoch)
  {
    hide Refines, InStep, SendBatch, Prompt, FutureRoute, AppendRequest, PointsOk, HostTick, HostTickAfter, Distance;
    var h, base := s.host, a.beat.value;
    var samples := AppendSamples(a.points, base, h.tail.value);
    var next := Perform(u, s, a);
    AppendInStep(o, clock, u.cfg, h, s.ledger, s.beat, base, a.trip, samples, next.host);
    assert |next.ledger.plan + next.host.pending| == |s.ledger.plan + h.pending| + |a.points|;
  }

  /** An accepted splice begins a new epoch, and is never one into a stream
      with a horizon. */
  lemma SpliceBreaks(o: u32, clock: u32, u: Setup, caps: HardCaps, s: System, a: Action, full: seq<Setpoint>,
                     epoch: u32)
    requires Linked(o, clock, u, caps, s) && ActionTimely(o, clock, caps, a) && a.SpliceAction?
    requires s.host.state == Active && Feeding(s, full, epoch) && AnswerOf(u, s, a) == Accepted
    ensures !Feeding(Perform(u, s, a), full, epoch) && HorizonOf(s.host) == 0
  {
    hide Refines, InStep, SendBatch, Prompt, FutureRoute, SpliceRequest, PointsOk, HostTick, HostTickAfter,
         RetainedRoute, InterpolateRoute;
    var h, base := s.host, a.beat.value;
    SpliceWasSent(u.cfg, u.limits, h, s.ledger, a.points, a.offset, base, a.trip);
    var at := SpliceTick(h, base, a.offset);
    SpliceInStep(o, clock, u.cfg, h, s.ledger, s.beat, base, a.trip, at, NextEpoch(h.epoch),
                 SpliceSamples(h, a.points, base, a.offset), h);
  }

  /** A request that is not accepted leaves the host's plan or faults it. */
  lemma RefusedKeeps(o: u32, clock: u32, u: Setup, caps: HardCaps, s: System, a: Action, full: seq<Setpoint>,
                     epoch: u32)
    requires Linked(o, clock, u, caps, s) && s.host.state == Active && Feeding(s, full, epoch)
    requires !(a.PollAction? || a.McuAction?)
    requires a.AppendAction? || a.SpliceAction? || a.StartAction? ==> AnswerOf(u, s, a) != Accepted
    ensures Feeding(Perform(u, s, a), full, epoch)
  {
    hide Refines, InStep, SendBatch, FutureRoute, PointsOk, HostTick, HostTickAfter, Distance, InterpolateRoute,
         RetainedRoute, SpliceArgumentsOk, AppendRequest, SpliceRequest, FirstRoute, HostLaunch;
  }

  /** An active plan goes on being fed through every action but those that
      interfere: whatever is polled, refused, lost, faulted, stopped or done by
      the MCU on its own. On an active plan only an append interferes, or a
      splice when the plan's last tick is zero. */
  lemma FeedKeeps(o: u32, clock: u32, u: Setup, caps: HardCaps, s: System, a: Action, full: seq<Setpoint>, epoch: u32)
    requires Linked(o, clock, u, caps, s) && ActionTimely(o, clock, caps, a)
    requires s.host.state == Active && Feeding(s, full, epoch)
    ensures Feeding(Perform(u, s, a), full, epoch) <==> !Interferes(o, u, caps, s, a)
    ensures Interferes(o, u, caps, s, a) ==> a.AppendAction? || (a.SpliceAction? && full[|full| - 1].tick == 0)
  {
    hide Refines, InStep, HostPump, Prompt, Book, HostAppend, HostSplice, HostStop, HostPrepare, HostStart, Linked,
         Interferes;
    InterferesWhenAccepted(o, clock, u, caps, s, a);
    if Interferes(o, u, caps, s, a) {
      if a.StartAction? {
        StartNeedsReady(u, s, a);
      } else if a.AppendAction? {
        AppendBreaks(o, clock, u, caps, s, a, full, epoch);
      } else {
        SpliceBreaks(o, clock, u, caps, s, a, full, epoch);
      }
    } else {
      match a
      case PollAction(_, _, _, _) => PollKeepsPlan(o, clock, u, caps, s, a, full, epoch);
      case McuAction(event) => OwnKeepsPlan(u, s, event, full, epoch);
      case _ => RefusedKeeps(o, clock, u, caps, s, a, full, epoch);
    }
  }

  lemma PollKeepsPlan(o: u32, clock: u32, u: Setup, caps: HardCaps, s: System, a: Action, full: seq<Setpoint>,
                      epoch: u32)
    requires Linked(o, clock, u, caps, s) && ActionTimely(o, clock, caps, a) && a.PollAction?
    requires s.host.state == Active && Feeding(s, full, epoch)
    ensures Feeding(Perform(u, s, a), full, epoch)
  {
    hide Refines, InStep, HostPump, Prompt;
    PumpFeeds(o, clock, u, caps, s, a.beat, a.trip);
  }

  lemma OwnKeepsPlan(u: Setup, s: System, event: Event, full: seq<Setpoint>, epoch: u32)
    requires Feeding(s, full, epoch) && OwnEvent(event)
    ensures Feeding(Perform(u, s, McuAction(event)), full, epoch)
  {
    hide Book, OwnEvent;
    OwnEventKeeps(s.ledger, event);
  }

  /** An active host refuses to start. */
  lemma StartNeedsReady(u: Setup, s: System, a: Action)
    requires s.host.state == Active && a.StartAction?
    ensures AnswerOf(u, s, a) == Refused
  {
    hide HostLaunch, FirstRoute;
  }

  /** A host that is not active becomes active only by an accepted start. */
  lemma IdleStays(u: Setup, s: System, a: Action)
    requires s.host.state != Active && (a.StartAction? ==> AnswerOf(u, s, a) != Accepted)
    ensures Perform(u, s, a).host.state != Active
  {
    hide HostAppendAt, HostSpliceAt, HostPump, HostCheck, FirstRoute, SendOpen, SendBatch, AppendRequest, PolicyRequest,
         Placed;
  }

  /** Nothing in the run interferes with the plan. */
  ghost predicate Uninterrupted(o: u32, u: Setup, caps: HardCaps, s: System, actions: seq<Action>)
    decreases |actions|
  {
    actions == []
    || (!Interferes(o, u, caps, s, actions[0]) && Uninterrupted(o, u, caps, Perform(u, s, actions[0]), actions[1..]))
  }

  /** Feeder conservation over whole runs: at every point of a finite plan's
      life the samples already sent followed by those pending are the validated
      plan, under one horizon and one epoch. */
  lemma {:induction false} RunsConserveThePlan(o: u32, clock: u32, u: Setup, caps: HardCaps, s: System,
                                          actions: seq<Action>,
                                               full: seq<Setpoint>, epoch: u32)
    requires Linked(o, clock, u, caps, s) && RunTimely(o, clock, caps, actions) && Feeding(s, full, epoch)
    requires Uninterrupted(o, u, caps, s, actions)
    ensures Feeding(PerformAll(u, s, actions), full, epoch)
    decreases |actions|
  {
    hide Linked, ActionTimely, Perform, ClockAfter, Interferes;
    if actions != [] {
      PerformLinked(o, clock, u, caps, s, actions[0]);
      if s.host.state == Active {
        FeedKeeps(o, clock, u, caps, s, actions[0], full, epoch);
      } else {
        InterferesWhenAccepted(o, clock, u, caps, s, actions[0]);
        IdleStays(u, s, actions[0]);
      }
      RunsConserveThePlan(o, ClockAfter(clock, actions[0]), u, caps, Perform(u, s, actions[0]), actions[1..], full,
          epoch);
    }
  }

  /** Once everything of a finite plan has been sent, no append is accepted: it
      would have to end after the plan's last sample, which is the horizon. */
  lemma FedPlanTakesNoAppend(o: u32, clock: u32, u: Setup, caps: HardCaps, s: System, a: Action, full: seq<Setpoint>,
                             epoch: u32)
    requires Linked(o, clock, u, caps, s) && ActionTimely(o, clock, caps, a) && a.AppendAction?
    requires s.host.state == Active && Feeding(s, full, epoch)
    requires s.host.pending == [] && full[|full| - 1].tick != 0
    ensures AnswerOf(u, s, a) != Accepted
  {
    hide Linked, Prompt, AppendPasses, HostAppend, AppendChecked, AppendSamples, Wellmade, StepAllowed;
    InterferesWhenAccepted(o, clock, u, caps, s, a);
    if AppendPasses(o, u, s, a.owner, a.points, a.beat, a.trip) {
      PassingAppendEnds(o, clock, u, caps, s, a);
      assert s.ledger.plan + [] == s.ledger.plan;
      TailOfPlan(o, clock, u, caps, s);
      assert false;
    }
  }

  /** A passing append ends after the tail and not after the horizon. */
  lemma PassingAppendEnds(o: u32, clock: u32, u: Setup, caps: HardCaps, s: System, a: Action)
    requires Linked(o, clock, u, caps, s) && ActionTimely(o, clock, caps, a) && a.AppendAction?
    requires AppendPasses(o, u, s, a.owner, a.points, a.beat, a.trip) && HorizonOf(s.host) != 0
    ensures s.host.tail.Some? && s.host.tail.value.tick != HorizonOf(s.host)
  {
    hide Linked, AppendChecked, AppendSamples, Wellmade, StepAllowed, TripTimely;
    var h, base := s.host, a.beat.value;
    var mid := BookAll(s.ledger, a.trip.meanwhile).exec;
    OnArrival(o, clock, u, caps, s, base, a.trip);
    BaseInWindow(o, clock, u, caps, mid.session.policy, base, a.trip);
    AppendIsWellmade(o, base, u.cfg, u.limits, mid.session.policy, a.points, h.tail.value);
    var samples := AppendSamples(a.points, base, h.tail.value);
    LastAfterFirst(o, base, u.limits, mid.session.policy, samples);
    HalfWindow(o, samples[|samples| - 1].tick, h.tail.value.tick);
  }

  lemma LastAfterFirst(o: u32, base: u32, limits: Limits, policy: Policy, samples: seq<Setpoint>)
    requires Wellmade(o, base, limits, policy, samples)
    ensures Since(o, samples[0].tick) <= Since(o, samples[|samples| - 1].tick) < TWO_31
  {
  }

  // ---- Acceptance ----

  /** A turn of the feeder that finds samples to send. */
  ghost predicate PumpReady(cfg: Config, h: Host, base: u32) {
    && h.pending != [] && h.horizon.Some? && h.tail.Some?
    && HostTickAfter(h.pending[0].tick, base) && cfg.minimumLeadMs <= Distance(h.pending[0].tick, base)
    && 0 < PumpCount(cfg, h, base)
  }

  lemma PumpIsSent(cfg: Config, h: Host, l: Ledger, base: u32, trip: Trip)
    requires PumpReady(cfg, h, base)
    ensures HostPump(cfg, h, l, Some(base), trip).2 == Accepted
       <==> SendBatch(l, trip, AppendRequest(HorizonOf(h), h.epoch, h.pending[..PumpCount(cfg, h, base)]), Append).1
  {
    hide SendBatch, HostTickAfter, Distance, FutureRoute, AppendRequest;
  }

  /** Any run of at most nine samples of a good plan is well made. */
  lemma SliceIsWellmade(o: u32, base: u32, cfg: Config, limits: Limits, policy: Policy, full: seq<Setpoint>, k: nat,
                        n: nat)
    requires GoodPlan(o, cfg, limits, full) && SentPolicy(cfg, policy)
    requires 0 < k && 0 < n <= WIRE_MAX_SAMPLES && k + n <= |full|
    requires forall i :: k <= i < k + n ==> Since(o, full[i].tick) <= Since(o, base) + policy.maximumLeadMs
    ensures Wellmade(o, base, limits, policy, full[k..k + n])
    ensures Since(o, full[k - 1].tick) < Since(o, full[k].tick) && StepAllowed(full[k - 1], full[k], policy.maximumStep)
    ensures Since(o, full[k + n - 1].tick) <= Since(o, full[|full| - 1].tick) < TWO_31
  {
    hide StepFits, StepAllowed, WithinLimits, PlanStep;
    var part := full[k..k + n];
    OrderedSlice(o, full, k, k + n);
    forall i | 0 <= i < n
      ensures WithinLimits(limits, part[i].pos)
      ensures 0 < i ==> StepAllowed(part[i - 1], part[i], policy.maximumStep)
    {
      assert part[i] == full[k + i];
      PlanStepAllowed(o, cfg, limits, policy, full, k + i);
    }
    PlanStepAllowed(o, cfg, limits, policy, full, k);
  }

  /** What the feeder picks is well made, follows the tail in an allowed step
      and stays within the horizon. */
  lemma ReadyIsWellmade(o: u32, base: u32, u: Setup, policy: Policy, s: System, full: seq<Setpoint>, epoch: u32)
    requires GoodPlan(o, u.cfg, u.limits, full) && SentPolicy(u.cfg, policy) && Feeding(s, full, epoch)
    requires s.host.state == Active && PumpReady(u.cfg, s.host, base)
    requires s.ledger.plan != [] && s.host.tail == Some(s.ledger.plan[|s.ledger.plan| - 1])
    requires Since(o, base) + u.cfg.maximumLeadMs < TWO_31
    ensures var ready := s.host.pending[..PumpCount(u.cfg, s.host, base)];
            && Wellmade(o, base, u.limits, policy, ready)
            && Since(o, s.host.tail.value.tick) < Since(o, ready[0].tick)
            && StepAllowed(s.host.tail.value, ready[0], policy.maximumStep)
            && Since(o, ready[|ready| - 1].tick) <= Since(o, HorizonOf(s.host)) < TWO_31
  {
    hide GoodPlan, StepAllowed, HostTickAfter, Distance, FutureRoute, Wellmade;
    var k, n := |s.ledger.plan|, PumpCount(u.cfg, s.host, base);
    forall i | k <= i < k + n
      ensures full[i] == s.host.pending[i - k]
      ensures Since(o, full[i].tick) <= Since(o, base) + policy.maximumLeadMs
    {
      GoodPlanWindow(o, u.cfg, u.limits, full, i);
      DistanceIsSub(full[i].tick, base);
      WithinLead(o, base, full[i].tick);
    }
    assert full[k..k + n] == s.host.pending[..n];
    SliceIsWellmade(o, base, u.cfg, u.limits, policy, full, k, n);
  }

  lemma GoodPlanWindow(o: u32, cfg: Config, limits: Limits, full: seq<Setpoint>, i: nat)
    requires GoodPlan(o, cfg, limits, full) && i < |full|
    ensures Since(o, full[i].tick) < TWO_31
  {
  }

  lemma WithinLead(o: u32, base: u32, tick: u32)
    requires Since(o, base) < TWO_31 && Since(o, tick) < TWO_31
    ensures Since(o, tick) <= Since(o, base) + Sub32(tick, base)
  {
  }

  /** Every batch the feeder sends is accepted exactly when its first sample
      still has the minimum lead when it arrives and the MCU's queue has room. */
  lemma PumpsAreAccepted(o: u32, clock: u32, u: Setup, caps: HardCaps, s: System, full: seq<Setpoint>, epoch: u32,
                         base: u32, trip: Trip)
    requires Linked(o, clock, u, caps, s) && s.host.state == Active && Prompt(o, clock, caps, base, trip)
    requires GoodPlan(o, u.cfg, u.limits, full) && Feeding(s, full, epoch) && PumpReady(u.cfg, s.host, base)
    requires trip.arrives && trip.answered
    requires BookAll(s.ledger, trip.meanwhile).exec.diag.state in {Priming, Running}
    ensures HostPump(u.cfg, s.host, s.ledger, Some(base), trip).2 == Accepted
       <==> && EnoughLead(o, trip.at, s.host.pending[0].tick, u.cfg.minimumLeadMs)
            && |BookAll(s.ledger, trip.meanwhile).exec.session.samples| + PumpCount(u.cfg, s.host,
                base) <= QUEUE_CAPACITY
  {
    hide Linked, GoodPlan, TripTimely, SendBatch, ExecAdmitBatch, Wellmade, StepAllowed, PumpCount, PumpReady, Feeding,
         AsHostBatch, AppendRequest, SpliceRequest, Ordered, HostPump;
    var h, l := s.host, s.ledger;
    var mid := BookAll(l, trip.meanwhile).exec;
    var n := PumpCount(u.cfg, h, base);
    OnArrival(o, clock, u, caps, s, base, trip);
    BaseInWindow(o, clock, u, caps, mid.session.policy, base, trip);
    PumpIsSent(u.cfg, h, l, base, trip);
    TailOfPlan(o, clock, u, caps, s);
    PumpHasSome(u.cfg, h, base);
    ReadyIsWellmade(o, base, u, mid.session.policy, s, full, epoch);
    var ready := h.pending[..n];
    WellmadeIs(o, base, u.limits, mid.session.policy, ready);
    RequestsAre(HorizonOf(h), h.epoch, 0, ready);
    SentIsAdmitted(o, l, trip, Request(HorizonOf(h), h.epoch, 0, ready), Append);
    EndsBy(o, ready, HorizonOf(h));
    AppendVerdict(o, base, mid, HorizonOf(h), h.epoch, ready, trip.at);
  }

  lemma TailOfPlan(o: u32, clock: u32, u: Setup, caps: HardCaps, s: System)
    requires Linked(o, clock, u, caps, s) && s.host.state == Active
    ensures s.ledger.plan != [] && s.host.tail == Some(s.ledger.plan[|s.ledger.plan| - 1])
  {
    hide Refines, InStep;
    RouteEndsPlan(o, clock, u.cfg, s.host, s.ledger, s.beat);
  }

  lemma PumpHasSome(cfg: Config, h: Host, base: u32)
    requires PumpReady(cfg, h, base)
    ensures 0 < PumpCount(cfg, h, base) && h.pending != []
  {
  }

  /** There is always room once the MCU has applied what the host has dropped:
      the feeder counts its own future route against the queue's capacity. */
  lemma RoomWhenCaughtUp(o: u32, clock: u32, u: Setup, caps: HardCaps, s: System, base: u32, trip: Trip)
    requires Linked(o, clock, u, caps, s) && s.host.state == Active && Prompt(o, clock, caps, base, trip)
    requires var queue := BookAll(s.ledger, trip.meanwhile).exec.session.samples;
             queue != [] ==> Since(o, base) < Since(o, queue[0].tick)
    ensures |BookAll(s.ledger, trip.meanwhile).exec.session.samples| + PumpCount(u.cfg, s.host, base) <= QUEUE_CAPACITY
         || PumpCount(u.cfg, s.host, base) == 0
  {
    hide Refines, InStep, FutureRoute, TimelyRun;
    var h, l := s.host, s.ledger;
    var mid := BookAll(l, trip.meanwhile);
    RefinesLater(o, clock, base, l);
    Meanwhile(o, base, l, trip);
    PlanOrdered(o, clock, l);
    PlanOrdered(o, trip.at, mid);
    QueueInPlan(o, trip.at, mid);
    BeatBefore(o, clock, u.cfg, h, l, s.beat);
    RouteFromPlan(o, clock, u.cfg, h, l, s.beat, base);
    var k := FutureIsCut(o, l.plan, base);
    if mid.exec.session.samples != [] {
      assert l.plan[|mid.applied|] == mid.exec.session.samples[0];
      assert k <= |mid.applied|;
    }
  }
}
