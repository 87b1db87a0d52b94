/** A host-started finite plan, from its validation to SUCCEEDED: what the
    feeder conserves is what the executor completes. */
module PlanCompletion {
  import opened Words
  import opened StreamContract
  import opened StreamExecutor
  import opened ExecutorRuns
  import opened PlanRefinement
  import opened SlewBound
  import opened StreamCompletion
  import opened HostAdapter
  import opened HostSimulation
  import opened HostRuns
  import opened HostGuarantees
  import opened StartAdmission
  import opened Feeder
  import opened HostPacing

  /** Once everything pending has been sent and something of it is still queued,
      the queue ends at the plan's last sample, and that sample's tick is the
      executor's horizon. */
  lemma FedQueueEnds(o: u32, clock: u32, u: Setup, caps: HardCaps, s: System, full: seq<Setpoint>, epoch: u32)
    requires Linked(o, clock, u, caps, s) && s.host.state == Active
    requires Feeding(s, full, epoch) && s.host.pending == [] && s.ledger.exec.session.samples != []
    ensures full != []
    ensures var queue, last := s.ledger.exec.session.samples, full[|full| - 1];
            queue[|queue| - 1] == last && s.ledger.exec.session.horizonEndTick == last.tick
  {
    hide Refines, InStep, IsSuffix, FutureRoute;
    TailOfPlan(o, clock, u, caps, s);
    QueueEndsRoute(o, clock, u, caps, s);
    assert s.ledger.plan + [] == s.ledger.plan;
  }

  /** No new stream is opened. */
  ghost predicate SameStream(e: Executor, events: seq<Event>)
    decreases |events|
  {
    events == []
    || (!(events[0].OpenEvent? && Handle(e, events[0]).1 == Done)
        && SameStream(Handle(e, events[0]).0, events[1..]))
  }

  /** A stream opened without a horizon never succeeds, whatever is appended,
      spliced, started, stepped or fed back. */
  lemma {:induction false} OpenEndedNeverSucceeds(e: Executor, events: seq<Event>)
    requires e.session.horizonEndTick == 0 && e.diag.state != Succeeded && SameStream(e, events)
    ensures Run(e, events).diag.state != Succeeded && Run(e, events).session.horizonEndTick == 0
    decreases |events|
  {
    hide Handle;
    if events != [] {
      if Handle(e, events[0]).0.diag.state == Succeeded {
        SuccessNeedsHorizon(e, events[0]);
      }
      StaysOpenEnded(e, events[0]);
      OpenEndedNeverSucceeds(Handle(e, events[0]).0, events[1..]);
    }
  }

  lemma StaysOpenEnded(e: Executor, event: Event)
    requires e.session.horizonEndTick == 0 && !(event.OpenEvent? && Handle(e, event).1 == Done)
    ensures Handle(e, event).0.session.horizonEndTick == 0
  {
    hide ExecAdmitBatch, ExecOpen, ExecStep, DecodeBatch;
    match event
    case OpenEvent(payload, now) => RefusalChangesNoPlan(e, payload, Append, now);
    case AdmitEvent(payload, kind, now) =>
      if ExecAdmit(e, payload, kind, now).1 == Done {
        DecodedBatch(payload, kind);
        AdmittedOpenEnded(e, DecodeBatch(payload, kind).value, kind, now);
      } else {
        RefusedAdmit(e, payload, kind, now);
      }
    case StepEvent(now) => StepPolicy(e, now);
    case _ =>
  }

  /** A stream without a horizon takes no batch with one. */
  lemma AdmittedOpenEnded(e: Executor, b: Batch, kind: Kind, now: u32)
    requires 0 < |b.samples| <= WIRE_MAX_SAMPLES && ExecAdmitBatch(e, b, kind, now).1 == Done
    requires e.session.horizonEndTick == 0
    ensures ExecAdmitBatch(e, b, kind, now).0.session.horizonEndTick == 0
  {
    hide ExecAdmitBatch, StepsAllowed, WithinOneStep;
    AdmittedShape(e, b, kind, now);
    var at := AdmittedVerdict(e, b, kind, now);
  }

  /** Undisturbed, a stream stays the same one. */
  lemma {:induction false} UndisturbedSameStream(E: u32, k: nat, e: Executor, events: seq<Event>)
    requires Undisturbed(E, k, e, events)
    ensures SameStream(e, events)
    decreases |events|
  {
    hide Handle;
    if events != [] {
      UndisturbedSameStream(E, if events[0].StepEvent? then k + 1 else k, Handle(e, events[0]).0, events[1..]);
    }
  }

  /** What the executor makes of a plan whose last sample is queued. */
  ghost predicate PlanOutcome(E: u32, k: nat, last: Setpoint, e: Executor, events: seq<Event>) {
    if last.tick == 0 then Run(e, events).diag.state != Succeeded
    else CompletedBy(E, last, k, StepsIn(events), Run(e, events), Outputs(e, events))
  }

  /** A finite start that passes, and a run after it in which nothing interferes
      and the MCU's own steps come on the beat. */
  ghost predicate StartedOnBeat(o: u32, clock: u32, u: Setup, caps: HardCaps, s: System, a: Action,
                                actions: seq<Action>)
  {
    && a.StartAction? && a.finite && StartPasses(o, u, caps, s, a)
    && Since(o, a.beat.value) + a.points[|a.points| - 1].offset < TWO_31
    && RunTimely(o, ClockAfter(clock, a), caps, actions)
    && Uninterrupted(o, u, caps, Perform(u, s, a), actions)
    && RunOnBeat(u, Phase.Primed, Perform(u, s, a), actions)
  }

  /** Such a run conserves the plan, and while the host is active the MCU is on
      time. */
  lemma StartedRunFeeds(o: u32, clock: u32, u: Setup, caps: HardCaps, s: System, a: Action, actions: seq<Action>)
    requires Linked(o, clock, u, caps, s) && ActionTimely(o, clock, caps, a)
    requires StartedOnBeat(o, clock, u, caps, s, a, actions)
    ensures a.beat.Some? && |a.points| > 0
    ensures var started, fed := Perform(u, s, a), PerformAll(u, Perform(u, s, a), actions);
            var end := ClockAfterAll(ClockAfter(clock, a), actions);
            && Linked(o, end, u, caps, fed)
            && Feeding(fed, Placed(a.points, a.beat.value, 0), started.host.epoch)
            && (fed.host.state == Active ==>
                  InPhase(o, end, PhaseAfterAll(u, Phase.Primed, started, actions), fed.ledger.exec))
  {
    hide Linked, ActionTimely, RunTimely, Uninterrupted, RunOnBeat, Perform, HostStart, HostTick, StartPasses, Feeding,
         ClockAfter, GoodPlan, InPhase, Placed;
    PassingHas(o, u, caps, s, a);
    HostStartsAreAccepted(o, clock, u, caps, s, a);
    StartFeeds(o, clock, u, caps, s, a);
    StartWaits(o, clock, u, caps, s, a);
    PerformLinked(o, clock, u, caps, s, a);
    var started, full := Perform(u, s, a), Placed(a.points, a.beat.value, 0);
    RunsConserveThePlan(o, ClockAfter(clock, a), u, caps, started, actions, full, started.host.epoch);
    RunsStayLinked(o, ClockAfter(clock, a), u, caps, started, actions);
    RunsKeepPhase(o, ClockAfter(clock, a), u, caps, started, actions, full, started.host.epoch, Phase.Primed);
  }

  lemma PassingHas(o: u32, u: Setup, caps: HardCaps, s: System, a: Action)
    requires a.StartAction? && StartPasses(o, u, caps, s, a)
    ensures a.beat.Some? && |a.points| > 0
  {
  }

  /** Plan completion. A finite plan is started and accepted; whatever then
      happens without interfering, with the MCU stepped on the beat: once the
      host has nothing pending, and the MCU, before its k-th step, still runs
      and holds some of the plan, undisturbed it goes on to the plan's last
      point. It is running with an output at every step before the first control
      tick at or after that point's tick and SUCCEEDED there, with that point as
      output. The exception is exact: a plan whose last tick is zero was opened
      without a horizon, and never succeeds. */
  lemma HostPlanCompletes(o: u32, clock: u32, u: Setup, caps: HardCaps, s: System, a: Action, actions: seq<Action>,
                          events: seq<Event>)
    requires Linked(o, clock, u, caps, s) && ActionTimely(o, clock, caps, a)
    requires StartedOnBeat(o, clock, u, caps, s, a, actions)
    requires var fed := PerformAll(u, Perform(u, s, a), actions);
             var p := PhaseAfterAll(u, Phase.Primed, Perform(u, s, a), actions);
             && fed.host.state == Active && fed.host.pending == []
             && fed.ledger.exec.diag.state == Running && fed.ledger.exec.session.samples != []
             && (p.Beating? ==> Undisturbed(p.E, p.k, fed.ledger.exec, events))
    ensures a.beat.Some? && |a.points| > 0
    ensures var fed := PerformAll(u, Perform(u, s, a), actions);
            var p := PhaseAfterAll(u, Phase.Primed, Perform(u, s, a), actions);
            var point := a.points[|a.points| - 1];
            && p.Beating?
            && PlanOutcome(p.E, p.k, Setpoint(HostTick(a.beat.value, point.offset), point.pos), fed.ledger.exec, events)
  {
    hide Linked, ActionTimely, Perform, PerformAll, Undisturbed, OnTime, HostTick, CompletedBy, Feeding, ClockAfter,
         GoodPlan, StartPasses, RunTimely, Uninterrupted, RunOnBeat;
    var started, fed := Perform(u, s, a), PerformAll(u, Perform(u, s, a), actions);
    StartedRunFeeds(o, clock, u, caps, s, a, actions);
    var full := Placed(a.points, a.beat.value, 0);
    FedQueueEnds(o, ClockAfterAll(ClockAfter(clock, a), actions), u, caps, fed, full, started.host.epoch);
    var p := PhaseAfterAll(u, Phase.Primed, started, actions);
    if full[|full| - 1].tick == 0 {
      UndisturbedSameStream(p.E, p.k, fed.ledger.exec, events);
      OpenEndedNeverSucceeds(fed.ledger.exec, events);
    } else {
      FiniteStreamCompletes(p.E, p.k, fed.ledger.exec, events);
    }
  }
}
