/** A host that feeds a finite plan to an MCU stepped every 5 ms: whatever the
    host's requests do to it, the MCU stays on time. */
module HostPacing {
  import opened Words
  import opened StreamContract
  import opened StreamExecutor
  import opened ExecutorRuns
  import opened Timeline
  import opened PlanRefinement
  import opened SlewBound
  import opened WireCodec
  import opened HostAdapter
  import opened HostSimulation
  import opened HostRuns
  import opened HostAdmission
  import opened StartAdmission
  import opened Feeder

  // ---- Pace ----

  /** The MCU still waits for its start, or was started at E and comes to its
      k-th step. */
  datatype Phase = Primed | Beating(E: u32, k: nat)

  function NextPhase(p: Phase, e: Executor, event: Event): Phase {
    if event.StartEvent? && Handle(e, event).1 == Done then Beating(event.now, 0)
    else if event.StepEvent? && p.Beating? then Beating(p.E, p.k + 1)
    else p
  }

  /** The MCU's own steps come at E, E + 5, E + 10, ... */
  ghost predicate OnBeat(p: Phase, event: Event) {
    p.Beating? && event.StepEvent? ==> 5 * p.k + 10 < TWO_31 && event.now == TickOf(p.E, p.k)
  }

  function PhaseAfter(p: Phase, l: Ledger, events: seq<Event>): Phase
    decreases |events|
  {
    if events == [] then p else PhaseAfter(NextPhase(p, l.exec, events[0]), Book(l, events[0]), events[1..])
  }

  ghost predicate AllOnBeat(p: Phase, l: Ledger, events: seq<Event>)
    decreases |events|
  {
    events == []
    || (OnBeat(p, events[0]) && AllOnBeat(NextPhase(p, l.exec, events[0]), Book(l, events[0]), events[1..]))
  }

  /** Where the MCU is in its pace: waiting with its queue primed, or, as long
      as it runs, on time. */
  ghost predicate InPhase(o: u32, clock: u32, p: Phase, e: Executor) {
    match p
    case Primed => e.diag.state == Priming
    case Beating(E, k) =>
      && e.diag.state != Priming && Since(o, E) <= Since(o, clock) && 5 * k <= Since(o, clock) - Since(o, E) + 5
      && (e.diag.state == Running ==> OnTime(E, k, e))
  }

  /** The whole plan is within the step limit, so the queue is. */
  ghost predicate PlanSteps(l: Ledger) {
    StepsAllowed(l.plan, l.exec.session.policy.maximumStep)
  }

  lemma QueueSteps(o: u32, clock: u32, l: Ledger)
    requires Refines(o, clock, l) && PlanSteps(l)
    ensures StepsAllowed(l.exec.session.samples, l.exec.session.policy.maximumStep)
  {
    hide Sound, GridOk, AnchorOk, Ordered, Near, StepAllowed;
    var n, queue := |l.applied|, l.exec.session.samples;
    forall i | 0 < i < |queue|
      ensures StepAllowed(queue[i - 1], queue[i], l.exec.session.policy.maximumStep)
    {
      assert queue[i] == l.plan[n + i] && queue[i - 1] == l.plan[n + i - 1];
    }
  }

  lemma PhaseLater(o: u32, clock: u32, later: u32, p: Phase, e: Executor)
    requires InPhase(o, clock, p, e) && Since(o, clock) <= Since(o, later)
    ensures InPhase(o, later, p, e)
  {
    hide OnTime;
  }

  /** What the MCU does on its own keeps its pace. */
  lemma OwnKeepsPhase(o: u32, clock: u32, p: Phase, l: Ledger, event: Event)
    requires Refines(o, clock, l) && PlanSteps(l) && Timely(o, clock, l.exec.caps, event) && OwnEvent(event)
    requires InPhase(o, clock, p, l.exec) && OnBeat(p, event)
    ensures InPhase(o, event.now, NextPhase(p, l.exec, event), Book(l, event).exec)
  {
    hide Refines, OnTime, ExecStart, ExecStep, ExecJointFeedback, Sound;
    var e := l.exec;
    match event
    case StartEvent(now, pos) =>
      StartNeedsPriming(e, now, pos);
      if ExecStart(e, now, pos).1 == Done {
        QueueSteps(o, clock, l);
        LedgerStart(o, clock, l, now, pos, 2);
        OnTimeRuns(now, 0, ExecStart(e, now, pos).0);
      }
    case StepEvent(now) => StepKeepsPhase(o, clock, p, e, now);
    case FeedbackEvent(now, joint, commanded, measured) =>
      if e.diag.state == Running {
        FeedbackKeepsSegment(p.E, p.k, e, now, joint, commanded, measured);
      } else {
        FeedbackIdle(e, now, joint, commanded, measured);
      }
  }

  lemma StartNeedsPriming(e: Executor, now: u32, pos: Vec)
    ensures ExecStart(e, now, pos).1 != Done ==> ExecStart(e, now, pos).0 == e
    ensures ExecStart(e, now, pos).1 == Done ==> e.diag.state == Priming
  {
  }

  lemma FeedbackIdle(e: Executor, now: u32, joint: nat, commanded: i32, measured: i32)
    requires e.diag.state != Running
    ensures var after := ExecJointFeedback(e, now, joint, commanded, measured).0;
            after.diag.state != Running && (after.diag.state == Priming <==> e.diag.state == Priming)
  {
  }

  lemma StepKeepsPhase(o: u32, clock: u32, p: Phase, e: Executor, now: u32)
    requires InPhase(o, clock, p, e) && OnBeat(p, StepEvent(now))
    requires Since(o, clock) <= Since(o, now) < TWO_31
    ensures InPhase(o, now, NextPhase(p, e, StepEvent(now)), ExecStep(e, now).0)
  {
    hide OnTime, StepRunning;
    if p.Beating? {
      Rebase(o, p.E, now);
      SinceTick(p.E, p.k);
      if e.diag.state == Running {
        StepStaysOnTime(p.E, p.k, e);
        DispatchOrEnd(p.E, p.k, e);
      }
    }
  }

  lemma SinceTick(E: u32, k: nat)
    requires 5 * k < TWO_31
    ensures Since(E, TickOf(E, k)) == 5 * k
  {
  }

  lemma {:induction false} OwnRunKeepsPhase(o: u32, clock: u32, p: Phase, l: Ledger, events: seq<Event>)
    requires Refines(o, clock, l) && PlanSteps(l) && TimelyRun(o, clock, l.exec.caps, events)
    requires forall i :: 0 <= i < |events| ==> OwnEvent(events[i])
    requires InPhase(o, clock, p, l.exec) && AllOnBeat(p, l, events)
    ensures InPhase(o, EndClock(clock, events), PhaseAfter(p, l, events), BookAll(l, events).exec)
    decreases |events|
  {
    hide Refines, InPhase, OnBeat, NextPhase, Timely, OwnEvent, Book, Terms;
    if events != [] {
      OwnKeepsPhase(o, clock, p, l, events[0]);
      BookRefines(o, clock, l, events[0]);
      OwnEventKeeps(l, events[0]);
      SameTermsSteps(l, Book(l, events[0]));
      OwnRunKeepsPhase(o, events[0].now, NextPhase(p, l.exec, events[0]), Book(l, events[0]), events[1..]);
    }
  }

  lemma SameTermsSteps(l: Ledger, next: Ledger)
    requires PlanSteps(l) && next.plan == l.plan && Terms(next.exec.session) == Terms(l.exec.session)
    ensures PlanSteps(next)
  {
    assert next.exec.session.policy == Terms(next.exec.session).policy;
    assert l.exec.session.policy == Terms(l.exec.session).policy;
  }

  // ---- A turn of the feeder ----

  /** An admitted append that fits the plan keeps the MCU's pace. */
  lemma AppendKeepsPhase(o: u32, at: u32, p: Phase, l: Ledger, payload: seq<u8>)
    requires Refines(o, at, l) && InPhase(o, at, p, l.exec)
    requires Since(o, at) + l.exec.caps.maximumLeadMs + CONTROL_TICK_MS < TWO_31
    requires DecodeBatch(payload, Append).Ok? && WireOrdered(DecodeBatch(payload, Append).value)
    requires l.exec.session.samples == [] && l.exec.diag.state == Running ==>
               && DecodeBatch(payload, Append).value.samples != []
               && StepAllowed(l.exec.anchor, DecodeBatch(payload, Append).value.samples[0],
                              l.exec.session.policy.maximumStep)
    ensures InPhase(o, at, p, Book(l, AdmitEvent(payload, Append, at)).exec)
  {
    hide Refines, OnTime, ExecAdmit, Sound, DecodeBatch, WireOrdered, StepAllowed;
    var e := l.exec;
    AdmitSameState(e, payload, Append, at);
    if e.diag.state == Running {
      RefinesSound(o, at, l);
      Rebase(o, p.E, at);
      if ExecAdmit(e, payload, Append, at).1 == Done && e.session.samples == [] {
        DrainedAppendStaysOnTime(p.E, p.k, e, payload, at);
      } else {
        AdmitKeepsSegment(p.E, p.k, e, payload, Append, at);
      }
    }
  }

  lemma AdmitSameState(e: Executor, payload: seq<u8>, kind: Kind, now: u32)
    ensures ExecAdmit(e, payload, kind, now).0.diag.state == e.diag.state
  {
    hide ExecAdmitBatch, DecodeBatch;
    if ExecAdmit(e, payload, kind, now).1 == Done {
      DecodedBatch(payload, kind);
      AdmittedShape(e, DecodeBatch(payload, kind).value, kind, now);
    } else {
      RefusedAdmit(e, payload, kind, now);
    }
  }

  /** The part of the plan that has been sent is within the step limit. */
  lemma FedPlanSteps(o: u32, clock: u32, u: Setup, caps: HardCaps, s: System, full: seq<Setpoint>, epoch: u32)
    requires Linked(o, clock, u, caps, s) && s.host.state == Active
    requires GoodPlan(o, u.cfg, u.limits, full) && Feeding(s, full, epoch)
    ensures PlanSteps(s.ledger)
  {
    hide Refines, GoodPlan, StepAllowed, FutureRoute, SentPolicy;
    var plan, policy := s.ledger.plan, s.ledger.exec.session.policy;
    PolicyIsSent(u.cfg, HorizonOf(s.host), policy);
    forall i | 0 < i < |plan|
      ensures StepAllowed(plan[i - 1], plan[i], policy.maximumStep)
    {
      assert full[i] == plan[i] && full[i - 1] == plan[i - 1];
      PlanStepAllowed(o, u.cfg, u.limits, policy, full, i);
    }
  }

  /** The MCU when a request reaches it, after its own steps. */
  lemma MeanwhileInPhase(o: u32, clock: u32, caps: HardCaps, l: Ledger, base: u32, trip: Trip, p: Phase)
    requires Refines(o, clock, l) && l.exec.caps == caps && PlanSteps(l) && InPhase(o, clock, p, l.exec)
    requires Prompt(o, clock, caps, base, trip) && AllOnBeat(p, l, trip.meanwhile)
    ensures InPhase(o, trip.at, PhaseAfter(p, l, trip.meanwhile), BookAll(l, trip.meanwhile).exec)
    ensures Refines(o, trip.at, BookAll(l, trip.meanwhile)) && BookAll(l, trip.meanwhile).exec.caps == caps
  {
    hide Refines, InPhase, TimelyRun, PlanSteps, AllOnBeat, OwnEvent, Terms;
    RefinesLater(o, clock, base, l);
    PhaseLater(o, clock, base, p, l.exec);
    Meanwhile(o, base, l, trip);
    OwnRunKeepsPhase(o, base, p, l, trip.meanwhile);
    PhaseLater(o, EndClock(base, trip.meanwhile), trip.at, PhaseAfter(p, l, trip.meanwhile),
               BookAll(l, trip.meanwhile).exec);
  }

  /** An acknowledged turn of the feeder keeps the MCU's pace. */
  lemma PumpKeepsPhase(o: u32, clock: u32, u: Setup, caps: HardCaps, s: System, full: seq<Setpoint>, epoch: u32,
                       base: u32, trip: Trip, p: Phase)
    requires Linked(o, clock, u, caps, s) && s.host.state == Active && Prompt(o, clock, caps, base, trip)
    requires GoodPlan(o, u.cfg, u.limits, full) && Feeding(s, full, epoch) && PumpReady(u.cfg, s.host, base)
    requires InPhase(o, clock, p, s.ledger.exec) && AllOnBeat(p, s.ledger, trip.meanwhile)
    requires SendBatch(s.ledger, trip, AppendRequest(HorizonOf(s.host), s.host.epoch,
                                                     s.host.pending[..PumpCount(u.cfg, s.host, base)]), Append).1
    ensures InPhase(o, trip.at, PhaseAfter(p, s.ledger, trip.meanwhile),
                    SendBatch(s.ledger, trip, AppendRequest(HorizonOf(s.host), s.host.epoch,
                        s.host.pending[..PumpCount(u.cfg, s.host, base)]), Append).0.exec)
  {
    hide Refines, InStep, InPhase, GoodPlan, Feeding, PumpReady, PumpCount, StepAllowed, PlanSteps, AllOnBeat, Wellmade,
         EncodeBatch, DecodeBatch, WireOrdered, AsHostBatch, AppendRequest, TimelyRun, Terms;
    var h, l := s.host, s.ledger;
    var mid := BookAll(l, trip.meanwhile);
    var ready := h.pending[..PumpCount(u.cfg, h, base)];
    FedPlanSteps(o, clock, u, caps, s, full, epoch);
    MeanwhileInPhase(o, clock, caps, l, base, trip, p);
    SentIsReceived(l, trip, AppendRequest(HorizonOf(h), h.epoch, ready), Append);
    OnArrival(o, clock, u, caps, s, base, trip);
    BaseInWindow(o, clock, u, caps, mid.exec.session.policy, base, trip);
    TailOfPlan(o, clock, u, caps, s);
    PumpHasSome(u.cfg, h, base);
    ReadyIsWellmade(o, base, u, mid.exec.session.policy, s, full, epoch);
    var b := Request(HorizonOf(h), h.epoch, 0, ready);
    RequestsAre(HorizonOf(h), h.epoch, 0, ready);
    var payload := EncodeBatch(AsHostBatch(b), Append).value;
    BatchWire(b, Append, payload);
    TripBound(o, base, caps, trip);
    if mid.exec.diag.state == Running && mid.exec.session.samples == [] {
      SamePlanMeanwhile(o, clock, caps, l, base, trip);
      DrainedHoldsTail(o, trip.at, mid);
    }
    AppendKeepsPhase(o, trip.at, PhaseAfter(p, l, trip.meanwhile), mid, payload);
  }

  lemma SamePlanMeanwhile(o: u32, clock: u32, caps: HardCaps, l: Ledger, base: u32, trip: Trip)
    requires Refines(o, clock, l) && l.exec.caps == caps && Prompt(o, clock, caps, base, trip)
    ensures BookAll(l, trip.meanwhile).plan == l.plan
  {
    hide Refines, TimelyRun, Terms;
    RefinesLater(o, clock, base, l);
    Meanwhile(o, base, l, trip);
  }

  // ---- Runs ----

  /** This poll sends something. */
  predicate Pumps(u: Setup, s: System, a: Action) {
    a.PollAction? && Perform(u, s, a).host.pending != s.host.pending && a.beat.Some?
  }

  function PhaseAfterAction(u: Setup, p: Phase, s: System, a: Action): Phase {
    if a.McuAction? then NextPhase(p, s.ledger.exec, a.event)
    else if Pumps(u, s, a) then PhaseAfter(p, s.ledger, a.trip.meanwhile)
    else p
  }

  /** The MCU's own steps come on the beat, between the host's operations and
      while a request is on its way. */
  ghost predicate ActionOnBeat(u: Setup, p: Phase, s: System, a: Action) {
    && (a.McuAction? ==> OnBeat(p, a.event))
    && (Pumps(u, s, a) ==> AllOnBeat(p, s.ledger, a.trip.meanwhile))
  }

  function PhaseAfterAll(u: Setup, p: Phase, s: System, actions: seq<Action>): Phase
    decreases |actions|
  {
    if actions == [] then p
    else PhaseAfterAll(u, PhaseAfterAction(u, p, s, actions[0]), Perform(u, s, actions[0]), actions[1..])
  }

  ghost predicate RunOnBeat(u: Setup, p: Phase, s: System, actions: seq<Action>)
    decreases |actions|
  {
    actions == []
    || (ActionOnBeat(u, p, s, actions[0])
        && RunOnBeat(u, PhaseAfterAction(u, p, s, actions[0]), Perform(u, s, actions[0]), actions[1..]))
  }

  /** A poll after which the host is still active either sent the ready part of
      the plan or left the MCU alone. */
  lemma PollShape(u: Setup, s: System, a: Action)
    requires s.host.state == Active && s.host.owner.Some? && a.PollAction? && Perform(u, s, a).host.state == Active
    ensures !Pumps(u, s, a) ==> Perform(u, s, a).ledger == s.ledger
    ensures Pumps(u, s, a) ==>
              && PumpReady(u.cfg, s.host, a.beat.value)
              && SendBatch(s.ledger, a.trip, AppendRequest(HorizonOf(s.host), s.host.epoch,
                           s.host.pending[..PumpCount(u.cfg, s.host, a.beat.value)]), Append)
                 == (Perform(u, s, a).ledger, true)
  {
    hide SendBatch, HostTickAfter, Distance, FutureRoute, AppendRequest, Settled;
    var h, n := s.host, if a.beat.Some? then PumpCount(u.cfg, s.host, a.beat.value) else 0;
    if h.pending != [] && 0 < n {
      assert h.pending[n..] != h.pending;
    }
  }

  /** Any other operation after which the host is still active, and which was
      not accepted, left the MCU alone. */
  lemma RefusedIsQuiet(u: Setup, s: System, a: Action)
    requires s.host.state == Active && !(a.PollAction? || a.McuAction?)
    requires a.AppendAction? || a.SpliceAction? || a.StartAction? ==> AnswerOf(u, s, a) != Accepted
    ensures Perform(u, s, a).host.state == Active ==> Perform(u, s, a).ledger == s.ledger
  {
    hide SendBatch, FutureRoute, PointsOk, HostTick, HostTickAfter, Distance, InterpolateRoute, RetainedRoute,
         SpliceArgumentsOk, AppendRequest, SpliceRequest, FirstRoute, HostLaunch;
  }

  /** Whatever the host does without interfering, the MCU keeps its pace as long
      as the host is active. */
  lemma ActionKeepsPhase(o: u32, clock: u32, u: Setup, caps: HardCaps, s: System, a: Action, full: seq<Setpoint>,
                         epoch: u32, p: Phase)
    requires Linked(o, clock, u, caps, s) && ActionTimely(o, clock, caps, a) && s.host.state == Active
    requires GoodPlan(o, u.cfg, u.limits, full) && Feeding(s, full, epoch) && !Interferes(o, u, caps, s, a)
    requires InPhase(o, clock, p, s.ledger.exec) && ActionOnBeat(u, p, s, a)
    ensures Perform(u, s, a).host.state == Active ==>
              InPhase(o, ClockAfter(clock, a), PhaseAfterAction(u, p, s, a), Perform(u, s, a).ledger.exec)
  {
    hide Refines, InStep, InPhase, GoodPlan, Feeding, Interferes, OnBeat, AllOnBeat, TimelyRun, Pumps, SendBatch,
         HostStart, HostAppend, HostSplice, HostPoll, Book, NextPhase, PhaseAfter;
    ClockForward(o, clock, caps, a);
    PhaseLater(o, clock, ClockAfter(clock, a), p, s.ledger.exec);
    if Perform(u, s, a).host.state == Active {
      if a.McuAction? {
        FedPlanSteps(o, clock, u, caps, s, full, epoch);
        OwnKeepsPhase(o, clock, p, s.ledger, a.event);
      } else if a.PollAction? {
        ActiveIsOwned(o, clock, u, caps, s);
        PollShape(u, s, a);
        if Pumps(u, s, a) {
          PumpsBeat(u, s, a);
          PumpKeepsPhase(o, clock, u, caps, s, full, epoch, a.beat.value, a.trip, p);
        }
      } else {
        InterferesWhenAccepted(o, clock, u, caps, s, a);
        RefusedIsQuiet(u, s, a);
        NeverPumps(u, s, a);
      }
    }
  }

  lemma ActiveIsOwned(o: u32, clock: u32, u: Setup, caps: HardCaps, s: System)
    requires Linked(o, clock, u, caps, s) && s.host.state == Active
    ensures s.host.owner.Some?
  {
  }

  lemma PumpsBeat(u: Setup, s: System, a: Action)
    requires Pumps(u, s, a)
    ensures a.PollAction? && a.beat.Some?
  {
  }

  lemma NeverPumps(u: Setup, s: System, a: Action)
    requires !a.PollAction?
    ensures !Pumps(u, s, a)
  {
  }

  lemma ClockForward(o: u32, clock: u32, caps: HardCaps, a: Action)
    requires ActionTimely(o, clock, caps, a)
    ensures Since(o, clock) <= Since(o, ClockAfter(clock, a))
  {
    hide TimelyRun;
  }

  /** A host that has stopped being active stays so, short of a start. */
  lemma {:induction false} IdleRunStays(o: u32, clock: u32, u: Setup, caps: HardCaps, s: System, actions: seq<Action>)
    requires Linked(o, clock, u, caps, s) && RunTimely(o, clock, caps, actions) && Uninterrupted(o, u, caps, s, actions)
    requires s.host.state != Active
    ensures PerformAll(u, s, actions).host.state != Active
    decreases |actions|
  {
    hide Linked, ActionTimely, Perform, ClockAfter, Interferes;
    if actions != [] {
      PerformLinked(o, clock, u, caps, s, actions[0]);
      InterferesWhenAccepted(o, clock, u, caps, s, actions[0]);
      IdleStays(u, s, actions[0]);
      IdleRunStays(o, ClockAfter(clock, actions[0]), u, caps, Perform(u, s, actions[0]), actions[1..]);
    }
  }

  /** Over whole runs in which nothing interferes and the MCU's own steps come on
      the beat, an MCU whose host is active at the end is still on time. */
  lemma {:induction false} RunsKeepPhase(o: u32, clock: u32, u: Setup, caps: HardCaps, s: System,
                                         actions: seq<Action>, full: seq<Setpoint>, epoch: u32, p: Phase)
    requires Linked(o, clock, u, caps, s) && RunTimely(o, clock, caps, actions) && s.host.state == Active
    requires GoodPlan(o, u.cfg, u.limits, full) && Feeding(s, full, epoch) && Uninterrupted(o, u, caps, s, actions)
    requires InPhase(o, clock, p, s.ledger.exec) && RunOnBeat(u, p, s, actions)
    ensures PerformAll(u, s, actions).host.state == Active ==>
              InPhase(o, ClockAfterAll(clock, actions), PhaseAfterAll(u, p, s, actions),
                      PerformAll(u, s, actions).ledger.exec)
    decreases |actions|
  {
    hide Linked, ActionTimely, Perform, ClockAfter, Interferes, GoodPlan, Feeding, InPhase, ActionOnBeat,
         PhaseAfterAction;
    if actions != [] {
      var next := Perform(u, s, actions[0]);
      PerformLinked(o, clock, u, caps, s, actions[0]);
      ActionKeepsPhase(o, clock, u, caps, s, actions[0], full, epoch, p);
      FeedKeeps(o, clock, u, caps, s, actions[0], full, epoch);
      if next.host.state == Active {
        RunsKeepPhase(o, ClockAfter(clock, actions[0]), u, caps, next, actions[1..], full, epoch,
                      PhaseAfterAction(u, p, s, actions[0]));
      } else {
        IdleRunStays(o, ClockAfter(clock, actions[0]), u, caps, next, actions[1..]);
      }
    }
  }

  // ---- The start ----

  /** An accepted start leaves the MCU waiting with its queue primed. */
  lemma StartWaits(o: u32, clock: u32, u: Setup, caps: HardCaps, s: System, a: Action)
    requires Linked(o, clock, u, caps, s) && a.StartAction? && ActionTimely(o, clock, caps, a)
    requires AnswerOf(u, s, a) == Accepted
    ensures Perform(u, s, a).host.state == Active
    ensures InPhase(o, ClockAfter(clock, a), Phase.Primed, Perform(u, s, a).ledger.exec)
  {
    hide Refines, InStep, HostOpen, TripTimely, FirstRoute, Placed;
    var h := s.host;
    var h1 := Anchored(h, a);
    var count := FirstRoute(u.cfg, u.limits, a.points, a.finite, h1.prepared.value).value;
    RefinesLater(o, clock, a.beat.value, s.ledger);
    OpenWaits(o, a.beat.value, u.cfg, Launched(h, a), s.ledger, Placed(a.points[..count], a.beat.value, 0),
              Placed(a.points[count..], a.beat.value, 0), a.finite, a.opening, a.trip);
  }

  lemma OpenWaits(o: u32, base: u32, cfg: Config, h: Host, l: Ledger, first: seq<Setpoint>, later: seq<Setpoint>,
                  finite: bool, opening: Trip, trip: Trip)
    requires Refines(o, base, l) && TripTimely(o, base, l.exec.caps, opening)
    requires TripTimely(o, opening.at, l.exec.caps, trip)
    requires HostOpen(cfg, h, l, first, later, finite, opening, trip).2 == HostAdapter.Accepted
    ensures HostOpen(cfg, h, l, first, later, finite, opening, trip).0.state == Active
    ensures HostOpen(cfg, h, l, first, later, finite, opening, trip).1.exec.diag.state == Priming
  {
    hide Refines, TimelyRun, SendOpen, SendBatch, PolicyRequest, AppendRequest, ExecAdmitBatch, WireOrdered,
         WellDecoded, OwnEvent;
    var all := first + later;
    var horizon := if finite then all[|all| - 1].tick else 0;
    var request := PolicyRequest(cfg, horizon);
    var ready := SendOpen(l, opening, request).0;
    OpenDelivered(o, base, l, opening, request);
    OpenPrimes(l, opening, request);
    PrimingWaitsOn(ready, trip.meanwhile);
    var b := Request(horizon, h.epoch, 0, first);
    RequestsAre(horizon, h.epoch, 0, first);
    Delivered(o, opening.at, ready, trip, b, Append);
    AdmittedShape(BookAll(ready, trip.meanwhile).exec, b, Append, trip.at);
  }
}
