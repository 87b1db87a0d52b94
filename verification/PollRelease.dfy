/** When a poll releases a finished plan, goes on, or stops everything: from the
    replies themselves and from where the executor stands. */
module PollRelease {
  import opened Words
  import opened StreamContract
  import opened StreamSession
  import opened StreamExecutor
  import opened ExecutorRuns
  import opened PlanRefinement
  import opened SlewBound
  import opened StreamCompletion
  import opened WireCodec
  import opened HostHealth
  import opened HostAdapter
  import opened HostSimulation
  import opened HostRuns
  import opened HostAdmission
  import opened Feeder
  import opened HostPacing
  import opened PlanCompletion
  import opened HostLaws

  // ---- The replies ----

  ghost predicate HeartBeats(reply: Option<StateReply>) {
    reply.Some? && reply.value.statusCode == 0 && !reply.value.stopLatched
  }

  /** Every question of the poll was answered, and no answer by itself calls for
      a stop. */
  ghost predicate Answered(r: PollReplies) {
    && HeartBeats(r.before) && HeartBeats(r.between) && HeartBeats(r.after) && r.executorRead
    && r.dispatch.Some? && r.tracking.Some?
    && !r.dispatch.value.faulted && r.dispatch.value.failureCount == 0
    && (!r.dispatch.value.active ==> r.dispatch.value.ready)
  }

  /** A whole feedback vector of twelve joints. */
  ghost predicate Measured(feedback: Option<Feedback>) {
    && feedback.Some? && feedback.value.statusCode == 0 && feedback.value.jointCount == 12
    && feedback.value.present == 4095 && |feedback.value.positions| == 12 && |feedback.value.ages| == 12
  }

  /** Nothing is on its way to the servos and nothing is being checked. */
  ghost predicate Quiet(r: PollReplies)
    requires Answered(r)
  {
    !r.dispatch.value.active && !r.tracking.value.active && !r.tracking.value.pending
  }

  /** Each joint's own tolerance; joints 5 and 11 are the grippers. */
  function ToleranceOf(cfg: Config, j: nat): int {
    if j in {5, 11} then cfg.gripperSettleTolerance else cfg.settleTolerance
  }

  /** The arms are where they were to go, as far as fresh measurements tell. */
  ghost predicate Arrived(cfg: Config, feedback: Feedback, target: Vec) {
    && |feedback.positions| == 12
    && (forall i :: 0 <= i < |feedback.ages| ==> feedback.ages[i] <= cfg.maximumFeedbackAgeMs)
    && forall j :: 0 <= j < 12 ==>
         -ToleranceOf(cfg, j) <= feedback.positions[j] - target[j] <= ToleranceOf(cfg, j)
  }

  /** What a poll finds out about the executor and the arms. */
  datatype Finding = Alarm | Moving | Home | Astray

  ghost function Found(cfg: Config, e: Executor, target: Vec, r: PollReplies): Finding {
    if !Answered(r) || e.diag.state in {Aborted, Hold} then Alarm
    else if e.diag.state != Succeeded then Moving
    else if !Measured(r.feedback) then Alarm
    else if !Quiet(r) then Moving
    else if Arrived(cfg, r.feedback.value, target) then Home
    else Astray
  }

  // ---- One poll ----

  lemma PerformPosed(u: Setup, s: System, a: Action)
    requires Posed(s.host)
    ensures Posed(Perform(u, s, a).host)
  {
    hide Perform, Posed;
    ActionCarries(u, s, a);
  }

  lemma {:induction false} RunsStayPosed(u: Setup, s: System, actions: seq<Action>)
    requires Posed(s.host)
    ensures Posed(PerformAll(u, s, actions).host)
    decreases |actions|
  {
    hide Perform, Posed;
    if actions != [] {
      PerformPosed(u, s, actions[0]);
      RunsStayPosed(u, Perform(u, s, actions[0]), actions[1..]);
    }
  }

  lemma WellIs(e: Executor, r: PollReplies)
    requires e.diag.safeStopRequired <==> e.diag.state == Hold || e.diag.state == Aborted
    ensures (AllWell(r, e.diag.state == Succeeded) && e.diag.state != Aborted && e.diag.state != Hold)
       <==> && Answered(r) && e.diag.state !in {Aborted, Hold}
            && (e.diag.state == Succeeded ==> Measured(r.feedback))
    ensures Answered(r) ==> (Busy(r) <==> !Quiet(r))
    ensures FeedbackComplete(r.feedback) <==> Measured(r.feedback)
  {
  }

  lemma SettledIs(cfg: Config, r: PollReplies, target: Vec)
    requires Measured(r.feedback)
    ensures FeedbackComplete(r.feedback)
    ensures Arrived(cfg, r.feedback.value, target) <==>
              var pose := MeasuredPose(r, cfg.maximumFeedbackAgeMs);
              pose.Some? && HostAdapter.Settled(cfg, pose.value, target)
    ensures MeasuredPose(r, cfg.maximumFeedbackAgeMs).Some? ==>
              MeasuredPose(r, cfg.maximumFeedbackAgeMs).value == r.feedback.value.positions
  {
  }

  /** The checks of a poll, once the feeder has had its turn. */
  lemma CheckDecides(cfg: Config, h: Host, e: Executor, r: PollReplies)
    requires Sound(e) && h.state == Active && h.prepared.Some? && h.tail.Some?
    ensures var found := Found(cfg, e, h.tail.value.pos, r);
            var (after, answer) := HostCheck(cfg, h, e, r);
            && (found == Alarm || found == Astray <==> answer == Failed)
            && (answer == Failed ==> after == h.(state := Faulted, armed := false))
            && (found == Moving ==> answer == Accepted && after == h)
            && (found == Home ==>
                  && answer == Accepted && Measured(r.feedback)
                  && after == h.(state := Ready, prepared := Some(r.feedback.value.positions), tail := None,
                                 route := [], horizon := None, pending := []))
  {
    hide AllWell, Busy, HostAdapter.Settled, MeasuredPose, Answered, Quiet, Arrived, PolicyInForce, BatchWithinLimits,
         WithinLimits, Measured, FeedbackComplete;
    WellIs(e, r);
    if Measured(r.feedback) {
      SettledIs(cfg, r, h.tail.value.pos);
    }
  }

  /** A poll of an active host by its owner. The feeder has its turn; if that
      fails, so does the poll. Then the adapter becomes ready exactly when the
      executor has succeeded, every reply is healthy, the services are quiet, no
      measurement is stale and every joint is within its own tolerance of the
      last point of the plan; it stops exactly when a reply or the executor
      raises an alarm or a joint is astray; otherwise it goes on. */
  lemma PollDecides(o: u32, clock: u32, u: Setup, caps: HardCaps, s: System, a: Action)
    requires Linked(o, clock, u, caps, s) && a.PollAction? && ActionTimely(o, clock, caps, a)
    requires s.host.state == Active && Claims(s.host, a.owner) && Posed(s.host)
    ensures var fed := HostPump(u.cfg, s.host, s.ledger, a.beat, a.trip);
            var after := Perform(u, s, a);
            && after.ledger == fed.1
            && (fed.2 != Accepted ==> after.host.state == Faulted)
            && (fed.2 == Accepted ==>
                  && fed.1.plan != []
                  && match Found(u.cfg, fed.1.exec, fed.1.plan[|fed.1.plan| - 1].pos, a.replies)
                     case Alarm => after.host.state == Faulted
                     case Astray => after.host.state == Faulted
                     case Moving => after.host == fed.0 && after.host.state == Active
                     case Home =>
                       && after.host.state == Ready && after.host.pending == [] && after.host.route == []
                       && Measured(a.replies.feedback)
                       && after.host.prepared == Some(a.replies.feedback.value.positions))
  {
    hide Refines, InStep, HostPump, HostCheck, Found, Measured, Prompt;
    var fed := HostPump(u.cfg, s.host, s.ledger, a.beat, a.trip);
    PumpLinked(o, clock, u, caps, s, a.beat, a.trip);
    PumpKeepsHost(u.cfg, s.host, s.ledger, a.beat, a.trip);
    if fed.2 == Accepted {
      var later := if a.beat.Some? then a.trip.at else clock;
      var next := System(fed.0, fed.1,
        if fed.0.pending != s.host.pending && a.beat.Some? then a.beat.value else s.beat);
      TailOfPlan(o, later, u, caps, next);
      RefinesSound(o, later, fed.1);
      CheckDecides(u.cfg, fed.0, fed.1.exec, a.replies);
    }
  }

  lemma PumpKeepsHost(cfg: Config, h: Host, l: Ledger, beat: Option<u32>, trip: Trip)
    ensures HostPump(cfg, h, l, beat, trip).0.prepared == h.prepared
    ensures HostPump(cfg, h, l, beat, trip).2 != Accepted ==> HostPump(cfg, h, l, beat, trip).0.state == Faulted
  {
    hide SendBatch, FutureRoute, HostTickAfter, Distance, AppendRequest, ReadyCount;
  }

  /** In every run from a new adapter beside a reset MCU. */
  lemma PollDecidesFromReset(o: u32, u: Setup, caps: HardCaps, actions: seq<Action>, a: Action)
    requires RunTimely(o, o, caps, actions) && a.PollAction? && ActionTimely(o, ClockAfterAll(o, actions), caps, a)
    requires var s := PerformAll(u, Initial(u, caps), actions);
             s.host.state == Active && Claims(s.host, a.owner)
    ensures var s := PerformAll(u, Initial(u, caps), actions);
            var fed := HostPump(u.cfg, s.host, s.ledger, a.beat, a.trip);
            (Perform(u, s, a).host.state == Ready <==>
               && fed.2 == Accepted && fed.1.plan != []
               && Found(u.cfg, fed.1.exec, fed.1.plan[|fed.1.plan| - 1].pos, a.replies) == Home)
  {
    hide Linked, RunTimely, ActionTimely, HostPump, Found, Perform;
    RunsFromReset(o, u, caps, actions);
    RunsStayPosed(u, Initial(u, caps), actions);
    PollDecides(o, ClockAfterAll(o, actions), u, caps, PerformAll(u, Initial(u, caps), actions), a);
  }

  // ---- The end of a finite plan ----

  /** What the MCU does on its own, as a run of the system. */
  function OwnActions(events: seq<Event>): seq<Action>
    decreases |events|
  {
    if events == [] then [] else [McuAction(events[0])] + OwnActions(events[1..])
  }

  lemma {:induction false} OwnRun(o: u32, clock: u32, u: Setup, caps: HardCaps, s: System, events: seq<Event>)
    requires Linked(o, clock, u, caps, s) && TimelyRun(o, clock, caps, events)
    requires forall i :: 0 <= i < |events| ==> OwnEvent(events[i])
    ensures PerformAll(u, s, OwnActions(events)) == s.(ledger := BookAll(s.ledger, events))
    ensures Linked(o, EndClock(clock, events), u, caps, PerformAll(u, s, OwnActions(events)))
    decreases |events|
  {
    hide Linked, Timely, OwnEvent, Book;
    if events != [] {
      McuLinked(o, clock, u, caps, s, events[0]);
      var next := Perform(u, s, McuAction(events[0]));
      OwnRun(o, events[0].now, u, caps, next, events[1..]);
      assert OwnActions(events)[1..] == OwnActions(events[1..]);
    }
  }

  /** With nothing left to feed the feeder leaves everything. */
  lemma NothingToPump(cfg: Config, h: Host, l: Ledger, beat: Option<u32>, trip: Trip)
    requires h.pending == []
    ensures HostPump(cfg, h, l, beat, trip) == (h, l, Accepted)
  {
  }

  /** What a poll makes of a plan that is over or is not. */
  ghost predicate Released(cfg: Config, over: bool, r: PollReplies, target: Vec, state: AdapterState) {
    && (state == Ready <==>
          over && Answered(r) && Measured(r.feedback) && Quiet(r) && Arrived(cfg, r.feedback.value, target))
    && (state == Active <==> Answered(r) && (!over || (Measured(r.feedback) && !Quiet(r))))
    && (state != Ready && state != Active ==> state == Faulted)
  }

  /** Why: what the poll finds of an executor that runs or has succeeded. */
  lemma ReleasedIs(cfg: Config, e: Executor, over: bool, r: PollReplies, target: Vec, state: AdapterState)
    requires e.diag.state == (if over then Succeeded else Running)
    requires match Found(cfg, e, target, r)
             case Home => state == Ready
             case Moving => state == Active
             case _ => state == Faulted
    ensures Released(cfg, over, r, target, state)
  {
    hide Answered, Measured, Quiet, Arrived;
  }

  /** The run of a started plan, the MCU's own end of it, and the poll after it. */
  ghost predicate PolledAtEnd(o: u32, end: u32, caps: HardCaps, fed: System, p: Phase, events: seq<Event>,
      poll: Action) {
    && fed.host.state == Active && fed.host.pending == []
    && fed.ledger.exec.diag.state == Running && fed.ledger.exec.session.samples != []
    && (p.Beating? ==> Undisturbed(p.E, p.k, fed.ledger.exec, events))
    && TimelyRun(o, end, caps, events) && (forall i :: 0 <= i < |events| ==> OwnEvent(events[i]))
    && poll.PollAction? && ActionTimely(o, EndClock(end, events), caps, poll) && Claims(fed.host, poll.owner)
  }

  /** The end of a finite plan, on both sides. A plan started, fed and stepped
      on the beat, as in `HostPlanCompletes`, runs on; a poll then releases the
      session exactly when the last point's control tick has passed, the replies
      are healthy and the services quiet, and every joint has arrived at the
      plan's last point. From that tick on, anything else but a busy service
      stops it. */
  lemma PlanIsReleased(o: u32, clock: u32, u: Setup, caps: HardCaps, s: System, a: Action, actions: seq<Action>,
                       events: seq<Event>, poll: Action)
    requires Linked(o, clock, u, caps, s) && ActionTimely(o, clock, caps, a) && Posed(s.host)
    requires StartedOnBeat(o, clock, u, caps, s, a, actions)
    requires PolledAtEnd(o, ClockAfterAll(ClockAfter(clock, a), actions), caps,
                         PerformAll(u, Perform(u, s, a), actions),
                         PhaseAfterAll(u, Phase.Primed, Perform(u, s, a), actions), events, poll)
    requires a.beat.Some? && |a.points| > 0
    requires HostTick(a.beat.value, a.points[|a.points| - 1].offset) != 0
    ensures var fed := PerformAll(u, Perform(u, s, a), actions);
            var p := PhaseAfterAll(u, Phase.Primed, Perform(u, s, a), actions);
            var last := a.points[|a.points| - 1];
            && p.Beating?
            && Released(u.cfg, p.k + StepsIn(events) > FinalStep(p.E, HostTick(a.beat.value, last.offset)),
                        poll.replies, last.pos, Perform(u, PerformAll(u, fed, OwnActions(events)), poll).host.state)
  {
    hide Linked, ActionTimely, Perform, PerformAll, Undisturbed, HostTick, Feeding, ClockAfter, StartedOnBeat,
         TimelyRun, OwnEvent, OwnActions, FinalStep, PhaseAfterAll, Posed, Released, Found, StepsIn;
    var fed := PerformAll(u, Perform(u, s, a), actions);
    var p := PhaseAfterAll(u, Phase.Primed, Perform(u, s, a), actions);
    StartedIs(o, clock, u, caps, s, a, actions);
    var end, last := ClockAfterAll(ClockAfter(clock, a), actions), a.points[|a.points| - 1];
    HostPlanCompletes(o, clock, u, caps, s, a, actions, events);
    StartedRunFeeds(o, clock, u, caps, s, a, actions);
    PerformPosed(u, s, a);
    RunsStayPosed(u, Perform(u, s, a), actions);
    ReleaseAfter(o, end, u, caps, fed, Placed(a.points, a.beat.value, 0), Perform(u, s, a).host.epoch, events, poll);
    var over := p.k + StepsIn(events) > FinalStep(p.E, HostTick(a.beat.value, last.offset));
    OutcomeState(p.E, p.k, Setpoint(HostTick(a.beat.value, last.offset), last.pos), fed.ledger.exec, events);
    ReleasedIs(u.cfg, Run(fed.ledger.exec, events), over, poll.replies, last.pos,
               Perform(u, PerformAll(u, fed, OwnActions(events)), poll).host.state);
  }

  lemma OutcomeState(E: u32, k: nat, last: Setpoint, e: Executor, events: seq<Event>)
    requires last.tick != 0 && PlanOutcome(E, k, last, e, events)
    ensures Run(e, events).diag.state == if k + StepsIn(events) > FinalStep(E, last.tick) then Succeeded else Running
  {
  }

  lemma StartedIs(o: u32, clock: u32, u: Setup, caps: HardCaps, s: System, a: Action, actions: seq<Action>)
    requires StartedOnBeat(o, clock, u, caps, s, a, actions)
    ensures a.StartAction? && a.finite
  {
  }

  /** A poll after the MCU's own events, with nothing pending: what it finds. */
  lemma ReleaseAfter(o: u32, clock: u32, u: Setup, caps: HardCaps, fed: System, full: seq<Setpoint>, epoch: u32,
                     events: seq<Event>, poll: Action)
    requires Linked(o, clock, u, caps, fed) && Feeding(fed, full, epoch) && Posed(fed.host)
    requires fed.host.state == Active && fed.host.pending == []
    requires TimelyRun(o, clock, caps, events) && (forall i :: 0 <= i < |events| ==> OwnEvent(events[i]))
    requires poll.PollAction? && ActionTimely(o, EndClock(clock, events), caps, poll) && Claims(fed.host, poll.owner)
    ensures full != []
    ensures var after := Perform(u, PerformAll(u, fed, OwnActions(events)), poll).host.state;
            match Found(u.cfg, Run(fed.ledger.exec, events), full[|full| - 1].pos, poll.replies)
            case Home => after == Ready
            case Moving => after == Active
            case _ => after == Faulted
  {
    hide Linked, ActionTimely, Perform, OwnEvent, TimelyRun, Found, HostPump, Posed, Terms;
    var done := fed.(ledger := BookAll(fed.ledger, events));
    OwnRun(o, clock, u, caps, fed, events);
    OwnEventsKeep(fed.ledger, events);
    BookIsRun(fed.ledger, events);
    NothingToPump(u.cfg, done.host, done.ledger, poll.beat, poll.trip);
    PollDecides(o, EndClock(clock, events), u, caps, done, poll);
    assert fed.ledger.plan + [] == fed.ledger.plan;
    assert done.ledger.plan == full;
  }
}
