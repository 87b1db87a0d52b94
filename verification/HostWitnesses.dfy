/** Requests at a linked state that do not turn out as promised: an append that
    only the firmware refuses, a splice that only the host refuses, one that
    cannot be sent, an append that breaks the plan being fed, and a plan that
    can never succeed. */
module HostWitnesses {
  import opened Words
  import opened StreamContract
  import opened StreamSession
  import opened StreamExecutor
  import opened ExecutorRuns
  import opened Timeline
  import opened PlanRefinement
  import opened WireCodec
  import opened HostAdapter
  import opened HostSimulation
  import opened HostRuns
  import opened HostGuarantees
  import opened HostAdmission
  import opened StartAdmission
  import opened Feeder
  import opened PlanCompletion
  import Example = DrainedAppend

  // ---- A linked state ----

  const CFG := Config(2, 20, 400, 100, 500, 5, Example.TRACKING, Example.TRACKING, Example.STEP, 46020, 150000, 150)
  const SETUP := Setup(CFG, Example.LIMITS, true)

  function PolicyFor(horizon: u32): Policy {
    Policy(2, ARM_MASK_BOTH, 20, horizon, 400, if horizon == 0 then 100 else 500, 5, Example.All(Example.TRACKING),
           Example.All(Example.STEP))
  }

  const QUEUE := [Setpoint(110, ZERO_VEC), Setpoint(150, ZERO_VEC)]

  /** The same queue, seen from an origin anywhere on the clock. */
  function Queue(o: u32): seq<Setpoint> {
    [Setpoint(Add32(o, 110), ZERO_VEC), Setpoint(Add32(o, 150), ZERO_VEC)]
  }

  /** Started 103 ms past the origin and stepped at 103 and 108: the sample at
      110 waits for the step at 113. */
  function Controller(o: u32, horizon: u32): Executor {
    Executor(Session(true, true, PolicyFor(horizon), 1, horizon, Queue(o)), Example.CAPS, Example.LIMITS,
             Setpoint(Add32(o, 103), ZERO_VEC), ZERO_VEC,
             Diagnostics(Running, NoReason, ValidationOnly, ContractOk, 2, 0, 2, 0, Add32(o, 80), 0, 0, NO_ERRORS, 2,
                         2, 0, false),
             Add32(o, 103), Add32(o, 108), true, true, true)
  }

  /** Beside it a host that planned from its heartbeat at 80 and still has
      `pending` to send. */
  function Streaming(o: u32, horizon: u32, pending: seq<Setpoint>): System {
    System(Host(Active, true, Some("owner"), 1, Some(ZERO_VEC), Some(Queue(o)[1]), Queue(o),
                if horizon == 0 then None else Some(horizon), pending),
           Ledger(Controller(o, horizon), [], Queue(o)), Add32(o, 80))
  }

  lemma ControllerSound(o: u32, horizon: u32)
    ensures Sound(Controller(o, horizon))
  {
    assert WithinLimits(Example.LIMITS, ZERO_VEC);
    hide WithinLimits, Example.All;
  }

  lemma PolicyForIsRequest(horizon: u32)
    ensures AsHostPolicy(PolicyFor(horizon)) == PolicyRequest(CFG, horizon)
  {
    hide Example.All;
  }

  lemma StreamingRefines(o: u32, horizon: u32, pending: seq<Setpoint>)
    ensures Refines(o, Add32(o, 108), Streaming(o, horizon, pending).ledger)
  {
    hide Sound, Example.All, PolicyFor;
    ControllerSound(o, horizon);
    assert [] + Queue(o) == Queue(o);
  }

  lemma StreamingInStep(o: u32, horizon: u32, pending: seq<Setpoint>)
    ensures var s := Streaming(o, horizon, pending); InStep(o, Add32(o, 108), CFG, s.host, s.ledger, s.beat)
  {
    hide AsHostPolicy, PolicyRequest, FutureRoute, Example.All, PolicyFor;
    PolicyForIsRequest(horizon);
    AllFuture(o, Queue(o), Add32(o, 80));
  }

  lemma StreamingLinked(o: u32, horizon: u32, pending: seq<Setpoint>)
    ensures Linked(o, Add32(o, 108), SETUP, Example.CAPS, Streaming(o, horizon, pending))
  {
    hide Refines, InStep, Example.All, PolicyFor;
    StreamingRefines(o, horizon, pending);
    StreamingInStep(o, horizon, pending);
  }

  /** A request that arrives at once. */
  const AT_ONCE := Trip([], 110, true, true)

  lemma ArrivesAtOnce()
    ensures Prompt(0, 108, Example.CAPS, 110, AT_ONCE)
  {
  }

  // ---- Past the horizon ----

  /** One more point, five milliseconds after the last one. */
  const ONE_MORE := [Point(45, ZERO_VEC)]

  lemma OneMoreIsChecked(horizon: u32)
    ensures AppendChecked(CFG, Example.LIMITS, ONE_MORE, 110, QUEUE[1])
    ensures AppendSamples(ONE_MORE, 110, QUEUE[1]) == [Setpoint(155, ZERO_VEC)]
  {
    assert PointOk(CFG, Example.LIMITS, ONE_MORE, Some(ZERO_VEC), 5, 0);
  }

  /** An append to a finite stream that passes every check of the host, arrives
      in time and finds room, and is refused: it passes the plan's horizon. The
      same append to an open-ended stream is accepted. */
  lemma FiniteAppendIsRefused()
    ensures Linked(0, 108, SETUP, Example.CAPS, Streaming(0, 150, []))
    ensures Linked(0, 108, SETUP, Example.CAPS, Streaming(0, 0, []))
    ensures AppendChecked(CFG, Example.LIMITS, ONE_MORE, 110, QUEUE[1])
    ensures var s := Streaming(0, 150, []);
            HostAppend(CFG, Example.LIMITS, s.host, s.ledger, "owner", ONE_MORE, Some(110), AT_ONCE).2 == Failed
    ensures var s := Streaming(0, 0, []);
            HostAppend(CFG, Example.LIMITS, s.host, s.ledger, "owner", ONE_MORE, Some(110), AT_ONCE).2 == Accepted
  {
    hide Linked, AppendChecked, AppendSamples, HostAppendAt, Example.All, PolicyFor;
    OneMoreIsChecked(150);
    AppendIsJudged(150);
    AppendIsJudged(0);
  }

  /** Past its first checks an append is accepted or faults the host. */
  lemma AppendNeverRefuses(cfg: Config, limits: Limits, h: Host, l: Ledger, points: seq<Point>, base: u32, trip: Trip)
    requires h.tail.Some?
    ensures HostAppendAt(cfg, limits, h, l, points, base, trip).2 != Refused
  {
    hide SendBatch, PointsOk, HostTick, HostTickAfter, Distance, AppendRequest, FutureRoute;
  }

  lemma AppendIsJudged(horizon: u32)
    requires horizon == 0 || horizon == 150
    ensures Linked(0, 108, SETUP, Example.CAPS, Streaming(0, horizon, []))
    ensures var s := Streaming(0, horizon, []);
            HostAppendAt(CFG, Example.LIMITS, s.host, s.ledger, ONE_MORE, 110, AT_ONCE).2
            == if horizon == 0 then Accepted else Failed
  {
    var s := Streaming(0, horizon, []);
    AppendNeverRefuses(CFG, Example.LIMITS, s.host, s.ledger, ONE_MORE, 110, AT_ONCE);
    hide Linked, AppendChecked, AppendSamples, HostAppendAt, Example.All, PolicyFor, Prompt;
    StreamingLinked(0, horizon, []);
    ArrivesAtOnce();
    OneMoreIsChecked(horizon);
    AppendsAreAccepted(0, 108, SETUP, Example.CAPS, Streaming(0, horizon, []), ONE_MORE, 110, AT_ONCE);
  }

  // ---- Between the heartbeat and the control tick ----

  lemma HostHasNoPosition()
    ensures FutureRoute(QUEUE, 110) == [QUEUE[1]] && InterpolateRoute([QUEUE[1]], 135).None?
  {
    hide HostBetween, HostTickAfter;
    assert QUEUE == [QUEUE[0]] + [QUEUE[1]];
    NoneFuture(0, [QUEUE[0]], 110);
    AllFuture(0, [QUEUE[1]], 110);
    FutureConcat([QUEUE[0]], [QUEUE[1]], 110);
    assert SampleAt([QUEUE[1]], 135, 1).None?;
  }

  lemma McuHasPosition()
    ensures Interpolate(QUEUE, 135) == Some(ZERO_VEC)
  {
    hide LerpVec;
    assert TickAfter(135, 110) && TickAfter(150, 135);
    Example.ZeroLine(25, 40);
  }

  /** The splice the host would have sent, had it a position to start from. */
  const UNSENT := [Setpoint(135, ZERO_VEC), Setpoint(155, ZERO_VEC)]

  lemma McuWouldAdmit()
    ensures ExecAdmitBatch(Controller(0, 0), Request(0, 2, 135, UNSENT), Splice, 110).1 == Done
  {
    hide Interpolate, Example.All;
    McuHasPosition();
    assert WithinLimits(Example.LIMITS, ZERO_VEC);
    hide WithinLimits;
    assert StepAllowed(UNSENT[0], UNSENT[1], PolicyFor(0).maximumStep);
    SpliceVerdict(0, 110, Controller(0, 0), 2, UNSENT, 110);
  }

  /** The firmware may answer where the host refuses. At its heartbeat at 110
      the host drops the sample at 110, which the controller holds until its
      step at 113; a splice at 135, with every lead, finds no position in the
      host's route and faults the host, while the firmware, sent that splice,
      would interpolate and admit it. */
  lemma McuAnswersAlone()
    ensures Linked(0, 108, SETUP, Example.CAPS, Streaming(0, 0, [])) && Prompt(0, 108, Example.CAPS, 110, AT_ONCE)
    ensures SpliceArgumentsOk(CFG, Example.LIMITS, ONE_MORE, 25)
    ensures var s := Streaming(0, 0, []);
            var r := HostSplice(CFG, Example.LIMITS, s.host, s.ledger, "owner", ONE_MORE, 25, Some(110), AT_ONCE);
            && s.host.state == Active && SpliceTick(s.host, 110, 25) == 135
            && r.1 == s.ledger && r.2 == Failed
            && BookAll(s.ledger, AT_ONCE.meanwhile).exec == Controller(0, 0)
            && Interpolate(QUEUE, 135) == Some(ZERO_VEC)
            && ExecAdmitBatch(Controller(0, 0), Request(0, NextEpoch(s.host.epoch), 135, UNSENT), Splice, 110).1 == Done
  {
    hide Linked, InterpolateRoute, Interpolate, FutureRoute, ExecAdmitBatch, Example.All, PolicyFor;
    StreamingLinked(0, 0, []);
    ArrivesAtOnce();
    HostHasNoPosition();
    McuHasPosition();
    McuWouldAdmit();
    assert PointOk(CFG, Example.LIMITS, ONE_MORE, None, 20, 0);
  }

  // ---- An append into a plan that is being fed ----

  /** The part of the plan still to be sent. */
  const REST := [Setpoint(200, ZERO_VEC)]

  /** A plan of three points, the last still pending, and an append between the
      second and the third: the firmware admits it, and what it holds followed
      by what is pending is no longer the plan. */
  lemma AppendBreaksPlan()
    ensures var s, a := Streaming(0, 200, REST), AppendAction("owner", ONE_MORE, Some(110), AT_ONCE);
            && Linked(0, 108, SETUP, Example.CAPS, s) && ActionTimely(0, 108, Example.CAPS, a)
            && s.host.state == Active && Feeding(s, QUEUE + REST, 1)
            && AnswerOf(SETUP, s, a) == Accepted && !Feeding(Perform(SETUP, s, a), QUEUE + REST, 1)
  {
    hide Linked, AppendChecked, AppendSamples, HostAppend, Interferes, AnswerOf, Feeding, Perform, Example.All,
         PolicyFor;
    var s, a := Streaming(0, 200, REST), AppendAction("owner", ONE_MORE, Some(110), AT_ONCE);
    StreamingLinked(0, 200, REST);
    ArrivesAtOnce();
    OneMoreIsChecked(200);
    StreamingFeeds();
    OneMorePasses();
    InterferesWhenAccepted(0, 108, SETUP, Example.CAPS, s, a);
    FeedKeeps(0, 108, SETUP, Example.CAPS, s, a, QUEUE + REST, 1);
  }

  lemma StreamingFeeds()
    ensures Feeding(Streaming(0, 200, REST), QUEUE + REST, 1)
  {
    hide Example.All, PolicyFor;
  }

  lemma OneMorePasses()
    ensures Interferes(0, SETUP, Example.CAPS, Streaming(0, 200, REST),
                       AppendAction("owner", ONE_MORE, Some(110), AT_ONCE))
  {
    hide AppendChecked, AppendSamples, Example.All, PolicyFor;
    OneMoreIsChecked(200);
  }

  // ---- Tick zero ----

  /** A request that arrives 109 ms past the origin, at once. */
  function TripAt109(o: u32): Trip {
    Trip([], Add32(o, 109), true, true)
  }

  lemma SpliceIsAt135(o: u32)
    ensures SpliceTick(Streaming(o, 0, []).host, Add32(o, 109), 25) == Add32(o, 135)
    ensures SpliceShift(HostTick(Add32(o, 109), 25), Add32(o, 150)) == 1
  {
    TickPlaced(o, Add32(o, 109), 25);
    TickPlaced(o, Add32(o, 109), 26);
    assert HostTick(Add32(o, 109), 25) == Add32(o, 134);
    DistanceIsSub(Add32(o, 150), Add32(o, 134));
    assert HostTick(Add32(o, 109), 26) == Add32(o, 135);
  }

  lemma RoutePosition(o: u32)
    ensures InterpolateRoute(FutureRoute(Queue(o), Add32(o, 109)), Add32(o, 135)) == Some(ZERO_VEC)
  {
    hide InterpolateRoute, InterpolateFrom, LerpVec, FutureRoute;
    var queue, at := Queue(o), Add32(o, 135);
    AllFuture(o, queue, Add32(o, 109));
    InterpolatorsEqual(o, queue, at);
    InterpolateAnswers(o, queue, at);
    ScanFinds(o, queue, 0, at, 0);
    Example.ZeroLine(25, 40);
  }

  lemma SpliceIsChecked(o: u32)
    ensures SpliceChecked(CFG, Example.LIMITS, Streaming(o, 0, []).host, ONE_MORE, 25, Add32(o, 109))
  {
    hide InterpolateRoute, FutureRoute, Example.All, PolicyFor, HostTick, SpliceShift;
    SpliceIsAt135(o);
    RoutePosition(o);
    DistanceIsSub(Add32(o, 135), Add32(o, 150));
    assert PointOk(CFG, Example.LIMITS, ONE_MORE, None, 20, 0);
    assert PointOk(CFG, Example.LIMITS, ONE_MORE, Some(ZERO_VEC), 20, 0);
  }

  /** One splice, with every check of the host passed and every lead on arrival,
      anywhere on the clock: it is accepted exactly when its tick is not zero.
      The origin 2^32 - 135 puts it there. */
  lemma SpliceNeedsTick(o: u32)
    ensures Linked(o, Add32(o, 108), SETUP, Example.CAPS, Streaming(o, 0, []))
    ensures SpliceChecked(CFG, Example.LIMITS, Streaming(o, 0, []).host, ONE_MORE, 25, Add32(o, 109))
    ensures var s := Streaming(o, 0, []);
            HostSplice(CFG, Example.LIMITS, s.host, s.ledger, "owner", ONE_MORE, 25, Some(Add32(o, 109)),
                       TripAt109(o)).2 == Accepted
            <==> Add32(o, 135) != 0
  {
    hide Linked, SpliceChecked, HostSplice, SpliceTick, Example.All, PolicyFor;
    var s := Streaming(o, 0, []);
    StreamingLinked(o, 0, []);
    SpliceIsChecked(o);
    SpliceIsAt135(o);
    HostSplicesAreAccepted(o, Add32(o, 108), SETUP, Example.CAPS, s, "owner", ONE_MORE, 25, Some(Add32(o, 109)),
                           TripAt109(o));
  }

  /** So, near the end of the clock, a splice that passes every check of the host
      and would meet every condition of the firmware cannot be sent, and faults
      the host: its tick is zero. */
  lemma ZeroSpliceFails()
    ensures var o := ZERO_ORIGIN;
            var s := Streaming(o, 0, []);
            && Linked(o, Add32(o, 108), SETUP, Example.CAPS, s)
            && SpliceChecked(CFG, Example.LIMITS, s.host, ONE_MORE, 25, Add32(o, 109))
            && SpliceTick(s.host, Add32(o, 109), 25) == 0
            && HostSplice(CFG, Example.LIMITS, s.host, s.ledger, "owner", ONE_MORE, 25, Some(Add32(o, 109)),
                          TripAt109(o)).2 == Failed
  {
    hide Linked, SpliceChecked, HostSpliceAt, SpliceTick, Example.All, PolicyFor;
    SpliceNeedsTick(ZERO_ORIGIN);
    SpliceIsAt135(ZERO_ORIGIN);
    SpliceNeverRefuses(CFG, Example.LIMITS, Streaming(ZERO_ORIGIN, 0, []).host, Streaming(ZERO_ORIGIN, 0, []).ledger,
                       ONE_MORE, 25, Add32(ZERO_ORIGIN, 109), TripAt109(ZERO_ORIGIN));
    ArgumentsChecked(ZERO_ORIGIN);
  }

  /** 2^32 - 135. */
  const ZERO_ORIGIN: u32 := 0xFFFF_FF79

  lemma ArgumentsChecked(o: u32)
    requires SpliceChecked(CFG, Example.LIMITS, Streaming(o, 0, []).host, ONE_MORE, 25, Add32(o, 109))
    ensures SpliceArgumentsOk(CFG, Example.LIMITS, ONE_MORE, 25)
  {
    hide SpliceArgumentsOk;
  }

  lemma SpliceNeverRefuses(cfg: Config, limits: Limits, h: Host, l: Ledger, points: seq<Point>, offset: int, base: u32,
                           trip: Trip)
    requires h.tail.Some? && |points| > 0
    ensures HostSpliceAt(cfg, limits, h, l, points, offset, base, trip).2 != Refused
  {
    hide SendBatch, PointsOk, HostTick, HostTickAfter, SpliceRequest, FutureRoute, InterpolateRoute;
  }

  // ---- A plan that ends at tick zero ----

  /** 2^32 - 296: the last point of the plan below lies 296 ms past it. */
  const PLAN_ORIGIN: u32 := 0xFFFF_FED8
  const PLAN := [Point(35, ZERO_VEC), Point(40, ZERO_VEC)]

  /** A reset system whose host has been prepared, and its start. */
  function PreparedSystem(): System {
    Perform(SETUP, Initial(SETUP, Example.CAPS), PrepareAction(Some(ZERO_VEC)))
  }

  function StartPlan(): Action {
    var base := Add32(PLAN_ORIGIN, 256);
    StartAction("owner", PLAN, true, Some(ZERO_VEC), true, Some(base), Trip([], base, true, true),
                Trip([], base, true, true))
  }

  lemma PlanIsChecked()
    ensures FirstRoute(CFG, Example.LIMITS, PLAN, true, ZERO_VEC) == Some(2)
    ensures StartHorizon(StartPlan()) == 0
  {
    hide Example.All;
    assert FinitePointOk(CFG, Example.LIMITS, PLAN, ZERO_VEC, 0);
    assert FinitePointOk(CFG, Example.LIMITS, PLAN, ZERO_VEC, 1);
    assert PLAN[..1] == [Point(35, ZERO_VEC)] && PLAN[..1][..0] == [];
    assert InsideLead(CFG, PLAN[..1]) == 1;
  }

  lemma OpenIsFine()
    ensures OpenPasses(Ledger(ExecInit(Example.CAPS, Example.LIMITS), [], []),
                       Trip([], Add32(PLAN_ORIGIN, 256), true, true), PolicyRequest(CFG, 0), Example.CAPS)
  {
    hide Example.All, HostPolicyOk, PolicyEncodes;
    PolicyForIsRequest(0);
    PolicyIsFine(Add32(PLAN_ORIGIN, 256));
  }

  lemma PolicyIsFine(now: u32)
    ensures PolicyEncodes(AsHostPolicy(PolicyFor(0))) && HostPolicyOk(AsHostPolicy(PolicyFor(0)), Example.CAPS, now)
  {
    hide Example.All;
  }

  lemma PlanPasses()
    ensures StartPasses(PLAN_ORIGIN, SETUP, Example.CAPS, PreparedSystem(), StartPlan())
  {
    hide Example.All, FirstRoute, OpenPasses, PolicyRequest;
    PlanIsChecked();
    OpenIsFine();
    assert PLAN[..2] == PLAN;
  }

  /** From reset: a valid finite plan whose last point falls on tick zero is
      accepted, but the stream the firmware opened for it has no horizon, and
      never succeeds, whatever comes after short of opening another stream. */
  lemma TickZeroPlanNeverSucceeds(events: seq<Event>)
    requires SameStream(Perform(SETUP, PreparedSystem(), StartPlan()).ledger.exec, events)
    ensures var s, a := PreparedSystem(), StartPlan();
            && Linked(PLAN_ORIGIN, PLAN_ORIGIN, SETUP, Example.CAPS, s)
            && ActionTimely(PLAN_ORIGIN, PLAN_ORIGIN, Example.CAPS, a) && AnswerOf(SETUP, s, a) == Accepted
            && var next := Perform(SETUP, s, a);
               && next.host.state == Active && next.host.horizon == Some(0)
               && Run(next.ledger.exec, events).diag.state != Succeeded
  {
    hide Linked, Perform, AnswerOf, StartPasses, Example.All, SameStream;
    PreparedLinked();
    PlanPasses();
    PlanIsTimely();
    HostStartsAreAccepted(PLAN_ORIGIN, PLAN_ORIGIN, SETUP, Example.CAPS, PreparedSystem(), StartPlan());
    PlanOpensWithoutHorizon();
    OpenEndedNeverSucceeds(Perform(SETUP, PreparedSystem(), StartPlan()).ledger.exec, events);
  }

  lemma PreparedLinked()
    ensures Linked(PLAN_ORIGIN, PLAN_ORIGIN, SETUP, Example.CAPS, PreparedSystem())
  {
    hide Refines, InStep, Example.All;
    InitialLinked(PLAN_ORIGIN, SETUP, Example.CAPS);
  }

  lemma PlanIsTimely()
    ensures ActionTimely(PLAN_ORIGIN, PLAN_ORIGIN, Example.CAPS, StartPlan())
  {
    hide Example.All;
  }

  lemma PlanOpensWithoutHorizon()
    requires AnswerOf(SETUP, PreparedSystem(), StartPlan()) == Accepted
    ensures var next := Perform(SETUP, PreparedSystem(), StartPlan());
            && next.host.state == Active && next.host.horizon == Some(0)
            && next.ledger.exec.session.horizonEndTick == 0 && next.ledger.exec.diag.state != Succeeded
  {
    hide Linked, Perform, HostStart, Example.All, PreparedSystem;
    var s, a := PreparedSystem(), StartPlan();
    var next := Perform(SETUP, s, a);
    assert Placed(PLAN, a.beat.value, 0)[1].tick == StartHorizon(a);
    PreparedLinked();
    PlanIsTimely();
    PlanIsChecked();
    StartFeeds(PLAN_ORIGIN, PLAN_ORIGIN, SETUP, Example.CAPS, s, a);
    StartActivates(SETUP, s, a);
    PerformLinked(PLAN_ORIGIN, PLAN_ORIGIN, SETUP, Example.CAPS, s, a);
    OpenEndedState(PLAN_ORIGIN, ClockAfter(PLAN_ORIGIN, a), SETUP, Example.CAPS, next);
  }

  lemma StartActivates(u: Setup, s: System, a: Action)
    requires a.StartAction? && AnswerOf(u, s, a) == Accepted
    ensures Perform(u, s, a).host.state == Active
  {
    hide FirstRoute, SendOpen, SendBatch, PolicyRequest, AppendRequest, Placed;
  }

  /** An active host with horizon tick zero is linked to a stream without one. */
  lemma OpenEndedState(o: u32, clock: u32, u: Setup, caps: HardCaps, s: System)
    requires Linked(o, clock, u, caps, s) && s.host.state == Active && HorizonOf(s.host) == 0
    ensures s.ledger.exec.session.horizonEndTick == 0 && s.ledger.exec.diag.state != Succeeded
  {
  }
}
