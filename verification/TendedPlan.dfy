/** A finite plan polled often enough, end to end: the MCU never runs dry, and
    the plan completes. */
module TendedPlan {
  import opened Words
  import opened StreamSession
  import opened StreamContract
  import opened StreamExecutor
  import opened ExecutorRuns
  import opened Timeline
  import opened PlanRefinement
  import opened SlewBound
  import opened StreamCompletion
  import opened WireCodec
  import opened HostAdapter
  import opened HostSimulation
  import opened HostRuns
  import opened HostAdmission
  import opened StartAdmission
  import opened Feeder
  import opened HostPacing
  import opened PlanCompletion
  import opened HostLaws
  import opened PollRelease
  import opened FeederProgress

  // ---- The MCU by itself ----

  /** The MCU waits for its start or runs. */
  predicate Up(e: Executor) {
    e.diag.state in {Priming, Running}
  }

  /** A step on time with something queued goes on, or has come to the end. */
  lemma QueuedStep(E: u32, k: nat, e: Executor)
    requires OnTime(E, k, e) && e.session.samples != [] && e.session.horizonEndTick != 0
    ensures ExecStep(e, TickOf(E, k)).0.diag.state in {Running, Succeeded}
  {
    hide QueueAhead, PolicyInForce, LerpVec;
    var e' := e.(lastStepTick := TickOf(E, k), lastStepValid := true);
    GatesOpen(E, k, e);
    DueNow(E, k, e);
    if 5 * k < Since(E, e.session.samples[0].tick) {
      QueueFacts(E, k, Since(E, e.anchor.tick), e.session.samples, e.session.policy.maximumStep);
      HalfWindow(E, e.session.samples[0].tick, e.anchor.tick);
      HalfWindow(E, TickOf(E, k), e.anchor.tick);
    }
  }

  /** While the plan's last tick is still to come, some of it is queued. */
  lemma StillQueued(o: u32, clock: u32, l: Ledger)
    requires Refines(o, clock, l) && l.plan != []
    requires Since(o, clock) < Since(o, l.plan[|l.plan| - 1].tick)
    ensures l.exec.session.samples != []
  {
    hide Sound, GridOk, AnchorOk, Ordered, Near;
    assert l.exec.session.samples == [] ==> l.plan == l.applied;
  }

  /** No tracking check fails. */
  ghost predicate Unalarmed(e: Executor, event: Event) {
    event.FeedbackEvent? ==> Handle(e, event).1 != Terminal
  }

  ghost predicate AllUnalarmed(l: Ledger, events: seq<Event>)
    decreases |events|
  {
    events == [] || (Unalarmed(l.exec, events[0]) && AllUnalarmed(Book(l, events[0]), events[1..]))
  }

  /** Before its plan's last tick nothing the MCU does on its own ends it. */
  lemma OwnStaysUp(o: u32, clock: u32, p: Phase, l: Ledger, event: Event)
    requires Refines(o, clock, l) && Timely(o, clock, l.exec.caps, event) && OwnEvent(event)
    requires InPhase(o, clock, p, l.exec) && OnBeat(p, event) && Unalarmed(l.exec, event)
    requires Up(l.exec) && l.exec.session.horizonEndTick != 0 && l.plan != []
    requires Since(o, event.now) < Since(o, l.plan[|l.plan| - 1].tick)
    ensures Up(Book(l, event).exec)
  {
    hide Refines, OnTime, ExecStart, ExecStep, ExecJointFeedback;
    var e := l.exec;
    match event
    case StartEvent(now, pos) => StartGoesUp(e, now, pos);
    case StepEvent(now) =>
      if e.diag.state == Priming {
        PrimingStep(e, now);
      } else {
        StillQueued(o, clock, l);
        QueuedStep(p.E, p.k, e);
        if ExecStep(e, now).0.diag.state == Succeeded {
          SuccessNeedsHorizon(e, event);
          BookRefines(o, clock, l, event);
          OwnEventKeeps(l, event);
          StillQueued(o, now, Book(l, event));
        }
      }
    case FeedbackEvent(now, joint, commanded, measured) => FeedbackStaysUp(e, now, joint, commanded, measured);
  }

  lemma StartGoesUp(e: Executor, now: u32, pos: Vec)
    requires Up(e)
    ensures Up(ExecStart(e, now, pos).0)
  {
  }

  lemma PrimingStep(e: Executor, now: u32)
    requires e.diag.state == Priming
    ensures ExecStep(e, now).0 == e
  {
  }

  lemma FeedbackStaysUp(e: Executor, now: u32, joint: nat, commanded: i32, measured: i32)
    requires Up(e) && ExecJointFeedback(e, now, joint, commanded, measured).1 != Terminal
    ensures Up(ExecJointFeedback(e, now, joint, commanded, measured).0)
  {
  }

  lemma {:induction false} OwnRunStaysUp(o: u32, clock: u32, p: Phase, l: Ledger, events: seq<Event>)
    requires Refines(o, clock, l) && TimelyRun(o, clock, l.exec.caps, events) && PlanSteps(l)
    requires forall i :: 0 <= i < |events| ==> OwnEvent(events[i])
    requires InPhase(o, clock, p, l.exec) && AllOnBeat(p, l, events) && AllUnalarmed(l, events)
    requires Up(l.exec) && l.exec.session.horizonEndTick != 0 && l.plan != []
    requires Since(o, clock) <= Since(o, EndClock(clock, events)) < Since(o, l.plan[|l.plan| - 1].tick)
    ensures Up(BookAll(l, events).exec)
    decreases |events|
  {
    hide Refines, InPhase, OnBeat, NextPhase, OwnEvent, Book, Terms, Unalarmed, Up, PlanSteps;
    if events != [] {
      var next := Book(l, events[0]);
      LaterEnds(o, clock, l.exec.caps, events);
      OwnStaysUp(o, clock, p, l, events[0]);
      OwnKeepsPhase(o, clock, p, l, events[0]);
      BookRefines(o, clock, l, events[0]);
      OwnEventKeeps(l, events[0]);
      SameTermsSteps(l, next);
      SameHorizon(l.exec, next.exec);
      OwnRunStaysUp(o, events[0].now, NextPhase(p, l.exec, events[0]), next, events[1..]);
    }
  }

  lemma SameHorizon(before: Executor, after: Executor)
    requires Terms(after.session) == Terms(before.session)
    ensures after.session.horizonEndTick == before.session.horizonEndTick
  {
    assert Terms(after.session).horizonEndTick == Terms(before.session).horizonEndTick;
  }

  lemma {:induction false} LaterEnds(o: u32, clock: u32, caps: HardCaps, events: seq<Event>)
    requires TimelyRun(o, clock, caps, events) && events != []
    ensures Since(o, clock) <= Since(o, events[0].now) <= Since(o, EndClock(clock, events))
    ensures EndClock(clock, events) == EndClock(events[0].now, events[1..])
    decreases |events|
  {
    if |events| > 1 {
      LaterEnds(o, events[0].now, caps, events[1..]);
    }
  }

  // ---- Host and MCU ----

  /** Neighbouring samples are at most `gap` ms apart. */
  ghost predicate Dense(o: u32, full: seq<Setpoint>, gap: nat) {
    forall i :: 0 < i < |full| ==> Since(o, full[i].tick) - Since(o, full[i - 1].tick) <= gap
  }

  /** Polls leave the MCU enough for the next gap. */
  ghost predicate KeepsAhead(cfg: Config, period: nat, delay: nat, gap: nat) {
    gap + period + delay < Slack(cfg)
  }

  /** On arrival the MCU has applied what was due at the heartbeat. */
  ghost predicate AppliedDue(o: u32, l: Ledger, base: u32, trip: Trip) {
    var queue := BookAll(l, trip.meanwhile).exec.session.samples;
    queue != [] ==> Since(o, base) < Since(o, queue[0].tick)
  }

  /** A poll in time, before the plan's end, that gets through and finds nothing
      wrong; what the MCU does while it is on its way is on the beat. */
  ghost predicate TendedPoll(o: u32, u: Setup, period: nat, delay: nat, end: u32, s: System, last: u32, p: Phase,
                             a: Action)
    requires a.PollAction?
  {
    && Claims(s.host, a.owner) && a.beat.Some? && a.trip.arrives && a.trip.answered && Answered(a.replies)
    && Since(o, a.beat.value) <= Since(o, last) + period && Since(o, a.trip.at) <= Since(o, a.beat.value) + delay
    && Since(o, a.trip.at) < Since(o, end)
    && (0 < PumpCount(u.cfg, s.host, a.beat.value) ==>
          && AppliedDue(o, s.ledger, a.beat.value, a.trip)
          && AllOnBeat(p, s.ledger, a.trip.meanwhile) && AllUnalarmed(s.ledger, a.trip.meanwhile))
  }

  /** What the MCU does on its own comes on the beat, before the next poll is
      overdue and before the plan's end, and no tracking check fails. */
  ghost predicate TendedOwn(o: u32, period: nat, delay: nat, end: u32, s: System, last: u32, p: Phase, event: Event) {
    && OnBeat(p, event) && Unalarmed(s.ledger.exec, event)
    && Since(o, event.now) <= Since(o, last) + period + delay && Since(o, event.now) < Since(o, end)
  }

  ghost predicate TendedAction(o: u32, u: Setup, period: nat, delay: nat, end: u32, s: System, last: u32, p: Phase,
                               a: Action) {
    match a
    case McuAction(event) => TendedOwn(o, period, delay, end, s, last, p, event)
    case PollAction(_, _, _, _) => TendedPoll(o, u, period, delay, end, s, last, p, a)
    case _ => false
  }

  /** A run up to the plan's last tick in which the host does nothing but poll in
      time, and the MCU nothing but run. It says nothing of what either side
      makes of that. */
  ghost predicate Tended(o: u32, u: Setup, period: nat, delay: nat, end: u32, s: System, last: u32, p: Phase,
                         actions: seq<Action>)
    decreases |actions|
  {
    actions == []
    || (&& TendedAction(o, u, period, delay, end, s, last, p, actions[0])
        && Tended(o, u, period, delay, end, Perform(u, s, actions[0]), BeatAfter(last, actions[0]),
                  PhaseAfterAction(u, p, s, actions[0]), actions[1..]))
  }

  /** All is well: the host feeds the plan, ahead of its last poll by the slack,
      and the MCU is up and on time. */
  ghost predicate Thriving(o: u32, clock: u32, u: Setup, caps: HardCaps, s: System, full: seq<Setpoint>, epoch: u32,
                           last: u32, p: Phase) {
    && Linked(o, clock, u, caps, s) && s.host.state == Active && Posed(s.host)
    && Feeding(s, full, epoch) && HasSlack(o, u.cfg, s.host.pending, last)
    && InPhase(o, clock, p, s.ledger.exec) && Up(s.ledger.exec)
  }

  /** The plan, as validated, and how it is polled. */
  ghost predicate Feasible(o: u32, u: Setup, period: nat, delay: nat, gap: nat, full: seq<Setpoint>) {
    && GoodPlan(o, u.cfg, u.limits, full) && full[|full| - 1].tick != 0 && Dense(o, full, gap)
    && OftenEnough(u.cfg, period, delay) && KeepsAhead(u.cfg, period, delay, gap)
  }

  /** What the MCU has been sent reaches beyond the next poll, or to the end. */
  lemma SentReaches(o: u32, clock: u32, u: Setup, caps: HardCaps, s: System, full: seq<Setpoint>, epoch: u32,
                    last: u32, p: Phase, period: nat, delay: nat, gap: nat, now: u32)
    requires Thriving(o, clock, u, caps, s, full, epoch, last, p) && Feasible(o, u, period, delay, gap, full)
    requires Since(o, now) <= Since(o, last) + period + delay && Since(o, now) < Since(o, full[|full| - 1].tick)
    ensures s.ledger.plan != [] && Since(o, now) < Since(o, s.ledger.plan[|s.ledger.plan| - 1].tick)
    ensures s.ledger.exec.session.horizonEndTick == full[|full| - 1].tick
  {
    hide GoodPlan, Refines, InPhase, Posed, Slack, OftenEnough, Up;
    var plan, pending := s.ledger.plan, s.host.pending;
    SentSome(o, clock, u, caps, s);
    if pending == [] {
      assert plan == full;
    } else {
      assert full[|plan|] == pending[0] && full[|plan| - 1] == plan[|plan| - 1];
    }
  }

  lemma SentSome(o: u32, clock: u32, u: Setup, caps: HardCaps, s: System)
    requires Linked(o, clock, u, caps, s) && s.host.state == Active
    ensures s.ledger.plan != [] && s.ledger.exec.session.horizonEndTick == HorizonOf(s.host)
  {
    hide Refines, SentPolicy;
    assert s.ledger.plan == [] ==> FutureRoute(s.ledger.plan, s.beat) == [];
  }

  lemma OwnThrives(o: u32, clock: u32, u: Setup, caps: HardCaps, s: System, full: seq<Setpoint>, epoch: u32, last: u32,
                   p: Phase, period: nat, delay: nat, gap: nat, a: Action)
    requires Thriving(o, clock, u, caps, s, full, epoch, last, p) && Feasible(o, u, period, delay, gap, full)
    requires a.McuAction? && ActionTimely(o, clock, caps, a)
    requires TendedOwn(o, period, delay, full[|full| - 1].tick, s, last, p, a.event)
    ensures Thriving(o, ClockAfter(clock, a), u, caps, Perform(u, s, a), full, epoch, last,
                     PhaseAfterAction(u, p, s, a))
  {
    hide Linked, Feeding, HasSlack, InPhase, Up, GoodPlan, Book, OnBeat, Unalarmed, PlanSteps, Dense, OftenEnough,
         KeepsAhead, Posed, Refines;
    SentReaches(o, clock, u, caps, s, full, epoch, last, p, period, delay, gap, a.event.now);
    FedPlanSteps(o, clock, u, caps, s, full, epoch);
    LinkedHas(o, clock, u, caps, s);
    OwnKeepsPhase(o, clock, p, s.ledger, a.event);
    OwnStaysUp(o, clock, p, s.ledger, a.event);
    PerformLinked(o, clock, u, caps, s, a);
    McuLeavesHost(o, clock, u, caps, s, a, full, epoch);
  }

  lemma LinkedHas(o: u32, clock: u32, u: Setup, caps: HardCaps, s: System)
    requires Linked(o, clock, u, caps, s)
    ensures Refines(o, clock, s.ledger) && s.ledger.exec.caps == caps
  {
    hide Refines;
  }

  /** The MCU as a batch of the feeder reaches it is still up. */
  lemma UpOnArrival(o: u32, clock: u32, u: Setup, caps: HardCaps, s: System, full: seq<Setpoint>, epoch: u32, last: u32,
                    p: Phase, period: nat, delay: nat, gap: nat, base: u32, trip: Trip)
    requires Thriving(o, clock, u, caps, s, full, epoch, last, p) && Feasible(o, u, period, delay, gap, full)
    requires Prompt(o, clock, caps, base, trip)
    requires Since(o, base) <= Since(o, last) + period && Since(o, trip.at) <= Since(o, base) + delay
    requires Since(o, trip.at) < Since(o, full[|full| - 1].tick)
    requires AllOnBeat(p, s.ledger, trip.meanwhile) && AllUnalarmed(s.ledger, trip.meanwhile)
    ensures Up(BookAll(s.ledger, trip.meanwhile).exec)
  {
    hide Linked, Feeding, HasSlack, InPhase, Up, GoodPlan, AllOnBeat, AllUnalarmed, PlanSteps, Dense, OftenEnough,
         KeepsAhead, Posed, Refines, TimelyRun, OwnEvent;
    SentReaches(o, clock, u, caps, s, full, epoch, last, p, period, delay, gap, trip.at);
    FedPlanSteps(o, clock, u, caps, s, full, epoch);
    LinkedHas(o, clock, u, caps, s);
    RefinesLater(o, clock, base, s.ledger);
    PhaseLater(o, clock, base, p, s.ledger.exec);
    OwnRunStaysUp(o, base, p, s.ledger, trip.meanwhile);
  }

  /** A batch that is delivered leaves the MCU as it found it, up or not. */
  lemma SendStaysUp(l: Ledger, trip: Trip, b: HostBatch)
    requires SendBatch(l, trip, b, Append).1 && Up(BookAll(l, trip.meanwhile).exec)
    ensures Up(SendBatch(l, trip, b, Append).0.exec)
  {
    hide EncodeBatch, ExecAdmit;
    AdmitSameState(BookAll(l, trip.meanwhile).exec, EncodeBatch(b, Append).value, Append, trip.at);
  }

  /** A tended poll succeeds, so it is one in time. */
  lemma TendedIsInTime(o: u32, clock: u32, u: Setup, caps: HardCaps, s: System, full: seq<Setpoint>, epoch: u32,
                       last: u32, p: Phase, period: nat, delay: nat, gap: nat, a: Action)
    requires Thriving(o, clock, u, caps, s, full, epoch, last, p) && Feasible(o, u, period, delay, gap, full)
    requires a.PollAction? && ActionTimely(o, clock, caps, a)
    requires TendedPoll(o, u, period, delay, full[|full| - 1].tick, s, last, p, a)
    ensures PollInTime(o, u, period, delay, s, last, a)
  {
    hide Linked, Feeding, HasSlack, InPhase, GoodPlan, AllOnBeat, AllUnalarmed, Dense, OftenEnough, KeepsAhead,
         Posed, Prompt, PumpCount, Answered, HostPump, SendBatch, Perform, PumpReady;
    var base := a.beat.value;
    var n := PumpCount(u.cfg, s.host, base);
    if 0 < n {
      UpOnArrival(o, clock, u, caps, s, full, epoch, last, p, period, delay, gap, base, a.trip);
    }
    TurnSucceeds(o, clock, u, caps, s, full, epoch, base, a.trip, last, period, delay);
    PollDecides(o, clock, u, caps, s, a);
    TurnLedger(u.cfg, s.host, s.ledger, base, a.trip);
    if 0 < n {
      SendStaysUp(s.ledger, a.trip, AppendRequest(HorizonOf(s.host), s.host.epoch, s.host.pending[..n]));
    }
  }

  /** What an accepted turn makes of the MCU. */
  lemma TurnLedger(cfg: Config, h: Host, l: Ledger, base: u32, trip: Trip)
    requires HostPump(cfg, h, l, Some(base), trip).2 == Accepted
    ensures var n := PumpCount(cfg, h, base);
            if n == 0 || h.pending == [] then HostPump(cfg, h, l, Some(base), trip).1 == l
            else SendBatch(l, trip, AppendRequest(HorizonOf(h), h.epoch, h.pending[..n]), Append)
                 == (HostPump(cfg, h, l, Some(base), trip).1, true)
  {
    hide SendBatch, HostTickAfter, FutureRoute, AppendRequest, ReadyCount;
  }

  lemma PollThrives(o: u32, clock: u32, u: Setup, caps: HardCaps, s: System, full: seq<Setpoint>, epoch: u32, last: u32,
                    p: Phase, period: nat, delay: nat, gap: nat, a: Action)
    requires Thriving(o, clock, u, caps, s, full, epoch, last, p) && Feasible(o, u, period, delay, gap, full)
    requires a.PollAction? && ActionTimely(o, clock, caps, a)
    requires TendedPoll(o, u, period, delay, full[|full| - 1].tick, s, last, p, a)
    ensures a.beat.Some? && ActionOnBeat(u, p, s, a)
    ensures Thriving(o, ClockAfter(clock, a), u, caps, Perform(u, s, a), full, epoch, a.beat.value,
                     PhaseAfterAction(u, p, s, a))
  {
    hide Linked, Feeding, HasSlack, InPhase, GoodPlan, AllOnBeat, AllUnalarmed, Dense, KeepsAhead, Posed, Prompt,
         PumpCount, Answered, HostPump, SendBatch, Perform, PumpReady, OftenEnough;
    TendedIsInTime(o, clock, u, caps, s, full, epoch, last, p, period, delay, gap, a);
    PollFeedsOn(o, clock, u, caps, s, full, epoch, a, last, period, delay);
    PerformLinked(o, clock, u, caps, s, a);
    PerformPosed(u, s, a);
    ActiveIsOwned(o, clock, u, caps, s);
    PollShape(u, s, a);
    PumpsSome(u, s, a);
    ActionKeepsPhase(o, clock, u, caps, s, a, full, epoch, p);
  }

  /** A poll that sends has something to send. */
  lemma PumpsSome(u: Setup, s: System, a: Action)
    requires s.host.state == Active && s.host.owner.Some? && a.PollAction? && Perform(u, s, a).host.state == Active
    ensures Pumps(u, s, a) ==> a.beat.Some? && 0 < PumpCount(u.cfg, s.host, a.beat.value)
  {
    hide Perform, PumpCount, SendBatch, FutureRoute, HostTickAfter;
    PollShape(u, s, a);
  }

  // ---- Runs ----

  /** Tended, all stays well to the plan's last tick. */
  lemma {:induction false} RunsThrive(o: u32, clock: u32, u: Setup, caps: HardCaps, s: System, full: seq<Setpoint>,
                                      epoch: u32, last: u32, p: Phase, period: nat, delay: nat, gap: nat,
                                      actions: seq<Action>)
    requires Thriving(o, clock, u, caps, s, full, epoch, last, p) && Feasible(o, u, period, delay, gap, full)
    requires RunTimely(o, clock, caps, actions) && full != []
    requires Tended(o, u, period, delay, full[|full| - 1].tick, s, last, p, actions)
    ensures Thriving(o, ClockAfterAll(clock, actions), u, caps, PerformAll(u, s, actions), full, epoch,
                     LastBeat(last, actions), PhaseAfterAll(u, p, s, actions))
    ensures RunOnBeat(u, p, s, actions) && Uninterrupted(o, u, caps, s, actions)
    ensures actions != [] ==>
              && Since(o, ClockAfterAll(clock, actions)) < Since(o, full[|full| - 1].tick)
              && Since(o, ClockAfterAll(clock, actions)) <= Since(o, LastBeat(last, actions)) + period + delay
    decreases |actions|
  {
    hide Thriving, Feasible, ActionTimely, Perform, ClockAfter, PhaseAfterAction, TendedOwn, TendedPoll, ActionOnBeat,
         BeatAfter;
    if actions != [] {
      var a := actions[0];
      ActionThrives(o, clock, u, caps, s, full, epoch, last, p, period, delay, gap, a);
      RunsThrive(o, ClockAfter(clock, a), u, caps, Perform(u, s, a), full, epoch, BeatAfter(last, a),
                 PhaseAfterAction(u, p, s, a), period, delay, gap, actions[1..]);
    }
  }

  lemma ActionThrives(o: u32, clock: u32, u: Setup, caps: HardCaps, s: System, full: seq<Setpoint>, epoch: u32,
                      last: u32, p: Phase, period: nat, delay: nat, gap: nat, a: Action)
    requires Thriving(o, clock, u, caps, s, full, epoch, last, p) && Feasible(o, u, period, delay, gap, full)
    requires ActionTimely(o, clock, caps, a) && full != []
    requires TendedAction(o, u, period, delay, full[|full| - 1].tick, s, last, p, a)
    ensures Thriving(o, ClockAfter(clock, a), u, caps, Perform(u, s, a), full, epoch, BeatAfter(last, a),
                     PhaseAfterAction(u, p, s, a))
    ensures ActionOnBeat(u, p, s, a) && !Interferes(o, u, caps, s, a)
    ensures Since(o, ClockAfter(clock, a)) < Since(o, full[|full| - 1].tick)
    ensures Since(o, ClockAfter(clock, a)) <= Since(o, BeatAfter(last, a)) + period + delay
  {
    hide Thriving, Feasible, ActionTimely, Perform, PhaseAfterAction, AllOnBeat, AllUnalarmed, AppliedDue, PumpCount;
    match a
    case McuAction(event) =>
      OwnThrives(o, clock, u, caps, s, full, epoch, last, p, period, delay, gap, a);
      NeverPumps(u, s, a);
    case PollAction(_, _, _, _) => PollThrives(o, clock, u, caps, s, full, epoch, last, p, period, delay, gap, a);
  }

  // ---- From the start ----

  /** Neighbouring points are at most `gap` ms apart. */
  ghost predicate Close(points: seq<Point>, gap: nat) {
    forall i :: 0 < i < |points| ==> points[i].offset - points[i - 1].offset <= gap
  }

  /** A finite plan with close points that is started, accepted and tended, up to
      its last tick. */
  ghost predicate StartedTended(o: u32, clock: u32, u: Setup, caps: HardCaps, s: System, a: Action, period: nat,
                                delay: nat, gap: nat, actions: seq<Action>)
  {
    && a.StartAction? && a.finite && StartPasses(o, u, caps, s, a)
    && OftenEnough(u.cfg, period, delay) && KeepsAhead(u.cfg, period, delay, gap) && Close(a.points, gap)
    && var last := a.points[|a.points| - 1].offset;
       && Since(o, a.beat.value) + last < TWO_31 && HostTick(a.beat.value, last) != 0
       && RunTimely(o, ClockAfter(clock, a), caps, actions)
       && Tended(o, u, period, delay, HostTick(a.beat.value, last), Perform(u, s, a), a.beat.value, Phase.Primed,
                 actions)
  }

  /** The start itself leaves all well. */
  lemma StartThrives(o: u32, clock: u32, u: Setup, caps: HardCaps, s: System, a: Action, period: nat, delay: nat,
                     gap: nat, actions: seq<Action>)
    requires Linked(o, clock, u, caps, s) && ActionTimely(o, clock, caps, a) && Posed(s.host)
    requires StartedTended(o, clock, u, caps, s, a, period, delay, gap, actions)
    ensures a.beat.Some? && |a.points| > 0
    ensures var started, full := Perform(u, s, a), Placed(a.points, a.beat.value, 0);
            && Thriving(o, ClockAfter(clock, a), u, caps, started, full, started.host.epoch, a.beat.value, Phase.Primed)
            && Feasible(o, u, period, delay, gap, full)
  {
    hide Linked, ActionTimely, Perform, ClockAfter, GoodPlan, HasSlack, OftenEnough, KeepsAhead, Tended, StartPasses,
         RunTimely, Posed, HostTick, Placed, Feeding, InPhase, Dense, Close;
    PassingHas(o, u, caps, s, a);
    var started, full := Perform(u, s, a), Placed(a.points, a.beat.value, 0);
    HostStartsAreAccepted(o, clock, u, caps, s, a);
    StartFeeds(o, clock, u, caps, s, a);
    StartWaits(o, clock, u, caps, s, a);
    StartLeavesSlack(o, clock, u, caps, s, a);
    PerformLinked(o, clock, u, caps, s, a);
    PerformPosed(u, s, a);
    PrimedIsUp(o, ClockAfter(clock, a), started.ledger.exec);
    PlacedDense(o, clock, u, caps, s, a, gap);
    LastPlaced(a.points, a.beat.value);
  }

  lemma PrimedIsUp(o: u32, clock: u32, e: Executor)
    requires InPhase(o, clock, Phase.Primed, e)
    ensures Up(e)
  {
  }

  lemma LastPlaced(points: seq<Point>, base: u32)
    requires |points| > 0
    ensures Placed(points, base, 0)[|points| - 1].tick == HostTick(base, points[|points| - 1].offset)
    ensures Placed(points, base, 0)[|points| - 1].pos == points[|points| - 1].pos
  {
  }

  lemma PlacedDense(o: u32, clock: u32, u: Setup, caps: HardCaps, s: System, a: Action, gap: nat)
    requires Linked(o, clock, u, caps, s) && a.StartAction? && a.finite && ActionTimely(o, clock, caps, a)
    requires AnswerOf(u, s, a) == Accepted && a.beat.Some? && |a.points| > 0
    requires Since(o, a.beat.value) + a.points[|a.points| - 1].offset < TWO_31 && Close(a.points, gap)
    ensures Dense(o, Placed(a.points, a.beat.value, 0), gap)
  {
    hide Linked, ActionTimely, AnswerOf, FinitePlanOk, HostTick, Placed;
    StartPends(o, clock, u, caps, s, a);
    var full, anchor := Placed(a.points, a.beat.value, 0), StartAdmission.Anchored(s.host, a).prepared.value;
    forall i | 0 < i < |full|
      ensures Since(o, full[i].tick) - Since(o, full[i - 1].tick) <= gap
    {
      PlacedAt(o, u.cfg, u.limits, a.points, anchor, a.beat.value, i);
      PlacedAt(o, u.cfg, u.limits, a.points, anchor, a.beat.value, i - 1);
    }
  }

  lemma NowQueued(o: u32, clock: u32, u: Setup, caps: HardCaps, s: System, full: seq<Setpoint>, epoch: u32, last: u32,
                  p: Phase, period: nat, delay: nat, gap: nat)
    requires Thriving(o, clock, u, caps, s, full, epoch, last, p) && Feasible(o, u, period, delay, gap, full)
    requires Since(o, clock) <= Since(o, last) + period + delay && Since(o, clock) < Since(o, full[|full| - 1].tick)
    ensures s.ledger.exec.session.samples != []
  {
    hide Linked, Feeding, HasSlack, InPhase, GoodPlan, Dense, KeepsAhead, Posed, OftenEnough, Refines;
    SentReaches(o, clock, u, caps, s, full, epoch, last, p, period, delay, gap, clock);
    LinkedHas(o, clock, u, caps, s);
    StillQueued(o, clock, s.ledger);
  }

  /** Tended, a finite plan thrives: at any time before its last tick the host is
      active, nothing of the plan has been lost, and the MCU is up with something
      left to do. No underrun on either side, and no fault. */
  lemma TendedPlanThrives(o: u32, clock: u32, u: Setup, caps: HardCaps, s: System, a: Action, period: nat, delay: nat,
                          gap: nat, actions: seq<Action>)
    requires Linked(o, clock, u, caps, s) && ActionTimely(o, clock, caps, a) && Posed(s.host)
    requires StartedTended(o, clock, u, caps, s, a, period, delay, gap, actions)
    ensures var fed := PerformAll(u, Perform(u, s, a), actions);
            && fed.host.state == Active && Up(fed.ledger.exec)
            && fed.ledger.plan + fed.host.pending == Placed(a.points, a.beat.value, 0)
            && (actions != [] ==> fed.ledger.exec.session.samples != [])
            && (fed.host.pending != [] ==>
                  Since(o, fed.host.pending[0].tick) >= Since(o, LastBeat(a.beat.value, actions)) + Slack(u.cfg))
    ensures StartedOnBeat(o, clock, u, caps, s, a, actions)
  {
    hide Linked, ActionTimely, Perform, ClockAfter, GoodPlan, OftenEnough, KeepsAhead, Tended, StartPasses,
         RunTimely, Posed, HostTick, Placed, Feeding, InPhase, Dense, Close, Slack, RunOnBeat, Uninterrupted, Up;
    StartThrives(o, clock, u, caps, s, a, period, delay, gap, actions);
    var started, full := Perform(u, s, a), Placed(a.points, a.beat.value, 0);
    var end, fed := ClockAfterAll(ClockAfter(clock, a), actions), PerformAll(u, started, actions);
    LastPlaced(a.points, a.beat.value);
    RunsThrive(o, ClockAfter(clock, a), u, caps, started, full, started.host.epoch, a.beat.value, Phase.Primed, period,
               delay, gap, actions);
    FedPlanIs(fed, full, started.host.epoch);
    if actions != [] {
      NowQueued(o, end, u, caps, fed, full, started.host.epoch, LastBeat(a.beat.value, actions),
                PhaseAfterAll(u, Phase.Primed, started, actions), period, delay, gap);
    }
  }

  /** By the first poll within the slack of its end all of it has been sent. */
  lemma TendedPlanIsSent(o: u32, clock: u32, u: Setup, caps: HardCaps, s: System, a: Action, period: nat, delay: nat,
                         gap: nat, actions: seq<Action>)
    requires Linked(o, clock, u, caps, s) && ActionTimely(o, clock, caps, a) && Posed(s.host)
    requires StartedTended(o, clock, u, caps, s, a, period, delay, gap, actions)
    requires Since(o, a.beat.value) + a.points[|a.points| - 1].offset
           < Since(o, LastBeat(a.beat.value, actions)) + Slack(u.cfg)
    ensures var fed := PerformAll(u, Perform(u, s, a), actions);
            fed.host.pending == [] && fed.ledger.plan == Placed(a.points, a.beat.value, 0)
  {
    hide Linked, ActionTimely, Perform, ClockAfter, GoodPlan, OftenEnough, KeepsAhead, Tended, StartPasses, RunTimely,
         Posed, HostTick, Placed, Feeding, Dense, Close, Slack, StartedOnBeat, Up;
    TendedPlanThrives(o, clock, u, caps, s, a, period, delay, gap, actions);
    HostStartsAreAccepted(o, clock, u, caps, s, a);
    StartFeeds(o, clock, u, caps, s, a);
    StartTick(o, clock, u, caps, s, a);
    var fed := PerformAll(u, Perform(u, s, a), actions);
    if fed.host.pending != [] {
      SlackAtEnd(o, u.cfg, u.limits, Placed(a.points, a.beat.value, 0), fed.ledger.plan, fed.host.pending,
                 LastBeat(a.beat.value, actions));
    }
  }

  lemma BeatingRuns(o: u32, clock: u32, p: Phase, e: Executor)
    requires InPhase(o, clock, p, e) && p.Beating? && Up(e)
    ensures e.diag.state == Running
  {
    hide OnTime;
  }

  /** A tended plan completes. Started, polled often enough to the end of its
      lead, and then left alone, a finite plan of any length is running with an
      output at every step until the control tick of its last point, and has
      succeeded there with that point as output. Nothing is assumed of what the
      host or the MCU made of the run. */
  lemma TendedPlanCompletes(o: u32, clock: u32, u: Setup, caps: HardCaps, s: System, a: Action, period: nat, delay: nat,
                            gap: nat, actions: seq<Action>, events: seq<Event>)
    requires Linked(o, clock, u, caps, s) && ActionTimely(o, clock, caps, a) && Posed(s.host)
    requires StartedTended(o, clock, u, caps, s, a, period, delay, gap, actions)
    requires Since(o, a.beat.value) + a.points[|a.points| - 1].offset
           < Since(o, LastBeat(a.beat.value, actions)) + Slack(u.cfg)
    requires var p := PhaseAfterAll(u, Phase.Primed, Perform(u, s, a), actions);
             p.Beating? && Undisturbed(p.E, p.k, PerformAll(u, Perform(u, s, a), actions).ledger.exec, events)
    ensures var fed := PerformAll(u, Perform(u, s, a), actions).ledger.exec;
            var p, point := PhaseAfterAll(u, Phase.Primed, Perform(u, s, a), actions), a.points[|a.points| - 1];
            CompletedBy(p.E, Setpoint(HostTick(a.beat.value, point.offset), point.pos), p.k, StepsIn(events),
                        Run(fed, events), Outputs(fed, events))
  {
    hide Linked, ActionTimely, Perform, PerformAll, Undisturbed, HostTick, CompletedBy, ClockAfter, Up, Tended,
         StartPasses, RunTimely, Posed, Slack, StartedOnBeat, OftenEnough, KeepsAhead, Close, Placed;
    var started := Perform(u, s, a);
    var fed := PerformAll(u, started, actions);
    TendedPlanThrives(o, clock, u, caps, s, a, period, delay, gap, actions);
    TendedPlanIsSent(o, clock, u, caps, s, a, period, delay, gap, actions);
    StartedRunFeeds(o, clock, u, caps, s, a, actions);
    BeatingRuns(o, ClockAfterAll(ClockAfter(clock, a), actions), PhaseAfterAll(u, Phase.Primed, started, actions),
                fed.ledger.exec);
    HostPlanCompletes(o, clock, u, caps, s, a, actions, events);
  }
}
