/** The finite-plan feeder at work: a turn sends all it may, and polled often
    enough it sends the whole plan without ever running dry. */
module FeederProgress {
  import opened Words
  import opened StreamContract
  import opened StreamSession
  import opened StreamExecutor
  import opened Timeline
  import opened PlanRefinement
  import opened WireCodec
  import opened HostAdapter
  import opened HostSimulation
  import opened HostRuns
  import opened HostGuarantees
  import opened HostAdmission
  import opened StartAdmission
  import opened Feeder
  import opened HostPacing
  import opened PlanCompletion
  import opened HostLaws
  import opened PollRelease

  // ---- One turn ----

  /** Nothing more could have gone: nothing is left, or the next sample lies
      beyond the lead window, or a whole batch went, or the queue is full by the
      host's own count. */
  ghost predicate SentAllItMay(cfg: Config, before: Host, after: Host, base: u32) {
    || after.pending == []
    || (after.pending[0].tick - base) % TWO_32 > cfg.maximumLeadMs
    || |before.pending| - |after.pending| == 9
    || |FutureRoute(before.route, base)| + (|before.pending| - |after.pending|) >= 16
  }

  lemma {:induction false} CountIsMaximal(cfg: Config, pending: seq<Setpoint>, base: u32, limit: int, from: nat)
    requires from <= |pending|
    ensures var n := ReadyCount(cfg, pending, base, limit, from);
            n == |pending| || Distance(pending[n].tick, base) > cfg.maximumLeadMs || n >= limit
    decreases |pending| - from
  {
    hide Distance;
    if !(from == |pending| || Distance(pending[from].tick, base) > cfg.maximumLeadMs || from >= limit) {
      CountIsMaximal(cfg, pending, base, limit, from + 1);
    }
  }

  /** What stops the count of a turn. */
  lemma CountLimits(cfg: Config, h: Host, base: u32)
    ensures var n := PumpCount(cfg, h, base);
            n == |h.pending| || (h.pending[n].tick - base) % TWO_32 > cfg.maximumLeadMs || n == 9
            || |FutureRoute(h.route, base)| + n >= 16
  {
    hide FutureRoute, ReadyCount;
    CountIsMaximal(cfg, h.pending, base, CountLimit(|FutureRoute(h.route, base)|), 0);
  }

  /** A turn that does not fail moves as many samples as it counts. */
  lemma TurnCounts(cfg: Config, h: Host, l: Ledger, base: u32, trip: Trip)
    requires HostPump(cfg, h, l, Some(base), trip).2 == Accepted
    ensures HostPump(cfg, h, l, Some(base), trip).0.pending == h.pending[PumpCount(cfg, h, base)..]
    ensures PumpCount(cfg, h, base) == 0 ==> HostPump(cfg, h, l, Some(base), trip).0 == h
  {
    hide SendBatch, FutureRoute, HostTickAfter, AppendRequest, ReadyCount, Distance;
  }

  /** A turn of the feeder that does not fail sends the longest beginning of
      what is pending that the lead window, the batch and the queue allow. */
  lemma TurnSendsAllItMay(cfg: Config, h: Host, l: Ledger, base: u32, trip: Trip)
    requires HostPump(cfg, h, l, Some(base), trip).2 == Accepted
    ensures var after := HostPump(cfg, h, l, Some(base), trip).0;
            && SentAllItMay(cfg, h, after, base)
            && |after.pending| <= |h.pending| && after.pending == h.pending[|h.pending| - |after.pending|..]
            && (|after.pending| < |h.pending| ==>
                  after.route == FutureRoute(h.route, base) + h.pending[..|h.pending| - |after.pending|])
  {
    hide SendBatch, FutureRoute, AppendRequest, HostPump, PumpCount;
    var n := PumpCount(cfg, h, base);
    PumpShape(cfg, h, l, Some(base), trip);
    TurnCounts(cfg, h, l, base, trip);
    CountLimits(cfg, h, base);
    if h.pending != [] && 0 < n {
      assert h.pending[|h.pending| - |h.pending[n..]|..] == h.pending[n..];
    } else {
      assert h.pending[0..] == h.pending;
    }
  }

  // ---- Slack ----

  /** How far ahead of the heartbeat the next pending sample is after a turn. */
  function Slack(cfg: Config): int {
    Least(cfg.maximumLeadMs + 1, Least(81, cfg.minimumLeadMs + 45))
  }

  function Least(a: int, b: int): int {
    if a < b then a else b
  }

  ghost predicate HasSlack(o: u32, cfg: Config, pending: seq<Setpoint>, base: u32) {
    pending != [] ==> Since(o, pending[0].tick) - Since(o, base) >= Slack(cfg)
  }

  /** The samples of a plan are at least one control tick apart. */
  lemma {:induction false} PlanSpacing(o: u32, cfg: Config, limits: Limits, full: seq<Setpoint>, i: nat, j: nat)
    requires GoodPlan(o, cfg, limits, full) && i <= j < |full|
    ensures Since(o, full[j].tick) >= Since(o, full[i].tick) + 5 * (j - i)
    decreases j - i
  {
    hide StepFits, BatchWithinLimits, Ordered;
    if i < j {
      assert PlanStep(o, cfg, full[j - 1], full[j]);
      PlanSpacing(o, cfg, limits, full, i, j - 1);
    }
  }

  /** The host's route and what is pending are the end of the plan. */
  lemma RouteIsPlanEnd(o: u32, clock: u32, u: Setup, caps: HardCaps, s: System, full: seq<Setpoint>, epoch: u32,
                       base: u32) returns (k: nat)
    requires Linked(o, clock, u, caps, s) && s.host.state == Active && Feeding(s, full, epoch)
    requires GoodPlan(o, u.cfg, u.limits, full) && Since(o, s.beat) <= Since(o, base) < TWO_31
    ensures k <= |full| && FutureRoute(s.host.route, base) + s.host.pending == full[k..]
    ensures k < |full| - |s.host.pending| ==> Since(o, base) < Since(o, full[k].tick)
    ensures |FutureRoute(s.host.route, base)| == |full| - |s.host.pending| - k
  {
    hide Refines, FutureRoute, GoodPlan, Ordered;
    var plan := s.ledger.plan;
    PlanOrdered(o, clock, s.ledger);
    RouteFromPlan(o, clock, u.cfg, s.host, s.ledger, s.beat, base);
    k := FutureIsCut(o, plan, base);
    assert full == plan + s.host.pending;
    assert full[k..] == plan[k..] + s.host.pending;
  }

  /** What a turn leaves pending is that far ahead. */
  lemma TurnLeavesSlack(o: u32, clock: u32, u: Setup, caps: HardCaps, s: System, full: seq<Setpoint>, epoch: u32,
                        base: u32, trip: Trip)
    requires Linked(o, clock, u, caps, s) && s.host.state == Active && Feeding(s, full, epoch)
    requires GoodPlan(o, u.cfg, u.limits, full) && Since(o, clock) <= Since(o, base) < TWO_31
    requires HostPump(u.cfg, s.host, s.ledger, Some(base), trip).2 == Accepted
    ensures HasSlack(o, u.cfg, HostPump(u.cfg, s.host, s.ledger, Some(base), trip).0.pending, base)
  {
    hide Linked, Feeding, GoodPlan, HostPump, FutureRoute, HostTickAfter, Distance, Slack, Since, SentAllItMay;
    var before, after := s.host.pending, HostPump(u.cfg, s.host, s.ledger, Some(base), trip).0.pending;
    var n, m := |before| - |after|, |full| - |before|;
    TurnSendsAllItMay(u.cfg, s.host, s.ledger, base, trip);
    if after != [] {
      BeatOf(o, clock, u, caps, s);
      var k := RouteIsPlanEnd(o, clock, u, caps, s, full, epoch, base);
      FedPlan(s, full, epoch);
      assert full[m + n] == after[0] && full[m] == before[0];
      GoodPlanWindow(o, u.cfg, u.limits, full, m + n);
      GoodPlanWindow(o, u.cfg, u.limits, full, m);
      Lead(o, base, after[0].tick);
      Lead(o, base, before[0].tick);
      TurnGate(u.cfg, s.host, s.ledger, base, trip);
      PlanSpacing(o, u.cfg, u.limits, full, m, m + n);
      Stopped(o, u.cfg, s.host, HostPump(u.cfg, s.host, s.ledger, Some(base), trip).0, base);
      SlackArises(o, u.cfg, u.limits, full, k, m, n, base);
    }
  }

  /** What stopped a turn, on the clock of the run. */
  lemma Stopped(o: u32, cfg: Config, before: Host, after: Host, base: u32)
    requires SentAllItMay(cfg, before, after, base) && after.pending != []
    requires Since(o, base) <= Since(o, after.pending[0].tick) < TWO_31
    ensures || Since(o, after.pending[0].tick) - Since(o, base) > cfg.maximumLeadMs
            || |before.pending| - |after.pending| == 9
            || |FutureRoute(before.route, base)| + (|before.pending| - |after.pending|) >= 16
  {
    hide FutureRoute, Since;
    Lead(o, base, after.pending[0].tick);
  }

  /** Where the room, the batch or the window ends, there is slack. */
  lemma SlackArises(o: u32, cfg: Config, limits: Limits, full: seq<Setpoint>, k: nat, m: nat, n: nat, base: u32)
    requires GoodPlan(o, cfg, limits, full) && k <= m && m + n < |full|
    requires Since(o, base) < Since(o, full[m].tick)
    requires Since(o, full[m].tick) - Since(o, base) >= cfg.minimumLeadMs
    requires k < m ==> Since(o, base) < Since(o, full[k].tick)
    requires Since(o, full[m + n].tick) - Since(o, base) > cfg.maximumLeadMs || n == 9 || m - k + n >= 16
    ensures Since(o, full[m + n].tick) - Since(o, base) >= Slack(cfg)
  {
    hide GoodPlan;
    PlanSpacing(o, cfg, limits, full, m, m + n);
    PlanSpacing(o, cfg, limits, full, k, m + n);
  }

  /** A turn that does not fail found its first sample ahead by the minimum lead. */
  lemma TurnGate(cfg: Config, h: Host, l: Ledger, base: u32, trip: Trip)
    requires HostPump(cfg, h, l, Some(base), trip).2 == Accepted && h.pending != []
    ensures HostTickAfter(h.pending[0].tick, base) && cfg.minimumLeadMs <= Distance(h.pending[0].tick, base)
  {
    hide SendBatch, FutureRoute, HostTickAfter, AppendRequest, ReadyCount, Distance;
  }

  lemma BeatOf(o: u32, clock: u32, u: Setup, caps: HardCaps, s: System)
    requires Linked(o, clock, u, caps, s) && s.host.state == Active
    ensures Since(o, s.beat) <= Since(o, clock)
  {
    hide Refines, FutureRoute;
  }

  lemma FedPlan(s: System, full: seq<Setpoint>, epoch: u32)
    requires Feeding(s, full, epoch) && s.host.state == Active
    ensures |s.host.pending| <= |full| && s.host.pending == full[|full| - |s.host.pending|..] && full != []
    ensures s.host.horizon.Some? && s.host.horizon == Some(full[|full| - 1].tick)
  {
  }

  lemma Lead(o: u32, base: u32, tick: u32)
    requires Since(o, base) < TWO_31 && Since(o, tick) < TWO_31
    ensures Since(o, base) <= Since(o, tick) ==> (tick - base) % TWO_32 == Since(o, tick) - Since(o, base)
    ensures (tick - base) % TWO_32 == Distance(tick, base)
    ensures Since(o, base) < Since(o, tick) <==> HostTickAfter(tick, base)
  {
    DistanceIsSub(tick, base);
    HalfWindow(o, tick, base);
    TickOrdersAgree(tick, base);
  }

  // ---- The start ----

  /** What an accepted finite start leaves for later is that far ahead too. */
  lemma StartLeavesSlack(o: u32, clock: u32, u: Setup, caps: HardCaps, s: System, a: Action)
    requires Linked(o, clock, u, caps, s) && a.StartAction? && a.finite && ActionTimely(o, clock, caps, a)
    requires AnswerOf(u, s, a) == Accepted
    ensures a.beat.Some? && |a.points| > 0
    ensures Since(o, a.beat.value) + a.points[|a.points| - 1].offset < TWO_31 ==>
              HasSlack(o, u.cfg, Perform(u, s, a).host.pending, a.beat.value)
  {
    hide Refines, InStep, HostOpen, TripTimely, FinitePlanOk, Placed, GoodPlan, HasSlack;
    StartFeeds(o, clock, u, caps, s, a);
    var h1 := StartAdmission.Anchored(s.host, a);
    var anchor, n := h1.prepared.value, FirstRoute(u.cfg, u.limits, a.points, true, h1.prepared.value).value;
    StartPends(o, clock, u, caps, s, a);
    if Since(o, a.beat.value) + a.points[|a.points| - 1].offset < TWO_31 {
      PlacedSlack(o, u.cfg, u.limits, a.points, anchor, a.beat.value);
    }
  }

  lemma StartPends(o: u32, clock: u32, u: Setup, caps: HardCaps, s: System, a: Action)
    requires Linked(o, clock, u, caps, s) && a.StartAction? && a.finite && ActionTimely(o, clock, caps, a)
    requires AnswerOf(u, s, a) == Accepted
    ensures a.beat.Some? && StartAdmission.Anchored(s.host, a).prepared.Some?
    ensures FinitePlanOk(u.cfg, u.limits, a.points, StartAdmission.Anchored(s.host, a).prepared.value)
    ensures Perform(u, s, a).host.pending == Placed(a.points[InitialCount(u.cfg, a.points)..], a.beat.value, 0)
  {
    hide Refines, InStep, SendOpen, SendBatch, TripTimely, FinitePlanOk, PolicyRequest, AppendRequest, InitialCount,
         Placed;
  }

  /** The first slice ends with the lead window or with a whole batch. */
  lemma PlacedSlack(o: u32, cfg: Config, limits: Limits, points: seq<Point>, anchor: Vec, base: u32)
    requires FinitePlanOk(cfg, limits, points, anchor) && |points| > 0
    requires Since(o, base) + points[|points| - 1].offset < TWO_31
    ensures HasSlack(o, cfg, Placed(points[InitialCount(cfg, points)..], base, 0), base)
  {
    hide StepFits, WithinLimits, HostTick, InsideLead;
    var n, full := InitialCount(cfg, points), Placed(points, base, 0);
    FinitePlanIsGood(o, base, cfg, limits, points, anchor);
    forall i, j | 0 <= i < j < |points|
      ensures points[i].offset < points[j].offset
    {
      FiniteOffsetsGrow(cfg, limits, points, anchor, i, j);
    }
    InsideLeadIsPrefix(cfg, points);
    if n < |points| {
      PlacedAt(o, cfg, limits, points, anchor, base, n);
      PlacedAt(o, cfg, limits, points, anchor, base, 0);
      PlanSpacing(o, cfg, limits, full, 0, n);
      assert Placed(points[n..], base, 0)[0] == full[n];
    }
  }

  lemma PlacedAt(o: u32, cfg: Config, limits: Limits, points: seq<Point>, anchor: Vec, base: u32, i: nat)
    requires FinitePlanOk(cfg, limits, points, anchor) && i < |points|
    requires Since(o, base) + points[|points| - 1].offset < TWO_31
    ensures Since(o, Placed(points, base, 0)[i].tick) == Since(o, base) + points[i].offset
  {
    hide StepFits, WithinLimits, HostTick;
    FiniteOffsetPositive(cfg, limits, points, anchor, i);
    FiniteOffsetsGrow(cfg, limits, points, anchor, i, |points| - 1);
    TickPlaced(o, base, points[i].offset);
  }

  // ---- Polling ----

  /** How often the host polls and how long its requests take, against the slack
      a turn leaves. */
  ghost predicate OftenEnough(cfg: Config, period: nat, delay: nat) {
    period + delay < Slack(cfg) && cfg.minimumLeadMs + period + delay <= Slack(cfg)
  }

  /** The MCU a request meets: taking batches, and with everything applied that
      is due by the heartbeat. */
  ghost predicate CaughtUp(o: u32, l: Ledger, base: u32, trip: Trip) {
    var mid := BookAll(l, trip.meanwhile).exec;
    && mid.diag.state in {Priming, Running}
    && (mid.session.samples != [] ==> Since(o, base) < Since(o, mid.session.samples[0].tick))
  }

  /** A poll that comes in time, gets through and finds nothing wrong. */
  ghost predicate PollInTime(o: u32, u: Setup, period: nat, delay: nat, s: System, last: u32, a: Action)
    requires a.PollAction?
  {
    && Claims(s.host, a.owner) && a.beat.Some? && a.trip.arrives && a.trip.answered && Answered(a.replies)
    && Since(o, a.beat.value) <= Since(o, last) + period && Since(o, a.trip.at) <= Since(o, a.beat.value) + delay
    && (0 < PumpCount(u.cfg, s.host, a.beat.value) ==> CaughtUp(o, s.ledger, a.beat.value, a.trip))
    && Perform(u, s, a).ledger.exec.diag.state in {Priming, Running}
  }

  function BeatAfter(last: u32, a: Action): u32 {
    if a.PollAction? && a.beat.Some? then a.beat.value else last
  }

  function LastBeat(last: u32, actions: seq<Action>): u32
    decreases |actions|
  {
    if actions == [] then last else LastBeat(BeatAfter(last, actions[0]), actions[1..])
  }

  /** The host polls in time, and otherwise leaves the MCU to itself. */
  ghost predicate Attended(o: u32, u: Setup, period: nat, delay: nat, s: System, last: u32, actions: seq<Action>)
    decreases |actions|
  {
    actions == []
    || (&& (actions[0].McuAction? || (actions[0].PollAction? && PollInTime(o, u, period, delay, s, last, actions[0])))
        && Attended(o, u, period, delay, Perform(u, s, actions[0]), BeatAfter(last, actions[0]), actions[1..]))
  }

  /** A turn in time does not fail: the samples it sends still have their lead on
      arrival, and the MCU has room for them. */
  lemma TurnSucceeds(o: u32, clock: u32, u: Setup, caps: HardCaps, s: System, full: seq<Setpoint>, epoch: u32,
                     base: u32, trip: Trip, last: u32, period: nat, delay: nat)
    requires Linked(o, clock, u, caps, s) && s.host.state == Active && Prompt(o, clock, caps, base, trip)
    requires GoodPlan(o, u.cfg, u.limits, full) && Feeding(s, full, epoch) && HasSlack(o, u.cfg, s.host.pending, last)
    requires OftenEnough(u.cfg, period, delay) && trip.arrives && trip.answered
    requires Since(o, base) <= Since(o, last) + period && Since(o, trip.at) <= Since(o, base) + delay
    requires 0 < PumpCount(u.cfg, s.host, base) ==> CaughtUp(o, s.ledger, base, trip)
    ensures HostPump(u.cfg, s.host, s.ledger, Some(base), trip).2 == Accepted
  {
    hide Linked, GoodPlan, Feeding, HostPump, Prompt, PumpCount, Slack;
    if s.host.pending == [] {
      NothingToPump(u.cfg, s.host, s.ledger, Some(base), trip);
    } else {
      var first := s.host.pending[0].tick;
      FedPlan(s, full, epoch);
      GoodPlanWindow(o, u.cfg, u.limits, full, |full| - |s.host.pending|);
      TailOfPlan(o, clock, u, caps, s);
      BaseBound(o, clock, caps, base, trip);
      Lead(o, base, first);
      TurnCases(u.cfg, s.host, s.ledger, base, trip);
      if 0 < PumpCount(u.cfg, s.host, base) {
        PumpsAreAccepted(o, clock, u, caps, s, full, epoch, base, trip);
        RoomWhenCaughtUp(o, clock, u, caps, s, base, trip);
      }
    }
  }

  lemma BaseBound(o: u32, clock: u32, caps: HardCaps, base: u32, trip: Trip)
    requires Prompt(o, clock, caps, base, trip)
    ensures Since(o, clock) <= Since(o, base) <= Since(o, trip.at) < TWO_31
  {
    hide TimelyRun;
  }

  /** A turn with its gates open either has nothing to send or is ready. */
  lemma TurnCases(cfg: Config, h: Host, l: Ledger, base: u32, trip: Trip)
    requires h.pending != [] && h.horizon.Some? && h.tail.Some?
    requires HostTickAfter(h.pending[0].tick, base) && cfg.minimumLeadMs <= Distance(h.pending[0].tick, base)
    ensures 0 < PumpCount(cfg, h, base) ==> PumpReady(cfg, h, base)
    ensures PumpCount(cfg, h, base) == 0 ==> HostPump(cfg, h, l, Some(base), trip).2 == Accepted
  {
    hide SendBatch, FutureRoute, HostTickAfter, AppendRequest, ReadyCount, Distance;
  }

  /** One poll in time: the host stays active, feeds on, and leaves the slack. */
  lemma PollFeedsOn(o: u32, clock: u32, u: Setup, caps: HardCaps, s: System, full: seq<Setpoint>, epoch: u32, a: Action,
                    last: u32, period: nat, delay: nat)
    requires Linked(o, clock, u, caps, s) && s.host.state == Active && Posed(s.host)
    requires a.PollAction? && ActionTimely(o, clock, caps, a) && PollInTime(o, u, period, delay, s, last, a)
    requires GoodPlan(o, u.cfg, u.limits, full) && Feeding(s, full, epoch) && HasSlack(o, u.cfg, s.host.pending, last)
    requires OftenEnough(u.cfg, period, delay)
    ensures var next := Perform(u, s, a);
            && next.host.state == Active && Feeding(next, full, epoch)
            && HasSlack(o, u.cfg, next.host.pending, a.beat.value)
  {
    hide Linked, GoodPlan, Feeding, HostPump, Prompt, CaughtUp, HasSlack, Answered, OftenEnough, Slack, Since, Posed;
    var base := a.beat.value;
    TurnSucceeds(o, clock, u, caps, s, full, epoch, base, a.trip, last, period, delay);
    TurnLeavesSlackAt(o, clock, u, caps, s, full, epoch, base, a.trip);
    PollDecides(o, clock, u, caps, s, a);
    PollKeepsPlan(o, clock, u, caps, s, a, full, epoch);
  }

  lemma TurnLeavesSlackAt(o: u32, clock: u32, u: Setup, caps: HardCaps, s: System, full: seq<Setpoint>, epoch: u32,
                          base: u32, trip: Trip)
    requires Linked(o, clock, u, caps, s) && s.host.state == Active && Feeding(s, full, epoch)
    requires GoodPlan(o, u.cfg, u.limits, full) && Prompt(o, clock, caps, base, trip)
    requires HostPump(u.cfg, s.host, s.ledger, Some(base), trip).2 == Accepted
    ensures HasSlack(o, u.cfg, HostPump(u.cfg, s.host, s.ledger, Some(base), trip).0.pending, base)
  {
    hide Linked, GoodPlan, Feeding, HostPump, Prompt, HasSlack;
    BaseBound(o, clock, caps, base, trip);
    TurnLeavesSlack(o, clock, u, caps, s, full, epoch, base, trip);
  }

  /** Feeder progress. Polled at most `period` ms apart, with requests that take
      at most `delay` ms, both together within the slack a turn leaves beyond the
      minimum lead, a plan is fed without a fault; and as soon as a poll comes
      within that slack of the plan's last sample, all of it has been sent. */
  lemma {:induction false} RunsFeedOn(o: u32, clock: u32, u: Setup, caps: HardCaps, s: System, full: seq<Setpoint>,
                                      epoch: u32, last: u32, period: nat, delay: nat, actions: seq<Action>)
    requires Linked(o, clock, u, caps, s) && s.host.state == Active && Posed(s.host)
    requires RunTimely(o, clock, caps, actions) && Attended(o, u, period, delay, s, last, actions)
    requires GoodPlan(o, u.cfg, u.limits, full) && Feeding(s, full, epoch) && HasSlack(o, u.cfg, s.host.pending, last)
    requires OftenEnough(u.cfg, period, delay)
    ensures var end := PerformAll(u, s, actions);
            && end.host.state == Active && Feeding(end, full, epoch)
            && HasSlack(o, u.cfg, end.host.pending, LastBeat(last, actions))
    decreases |actions|
  {
    hide Linked, ActionTimely, Perform, ClockAfter, GoodPlan, Feeding, HasSlack, OftenEnough, PollInTime, Posed;
    if actions != [] {
      var a := actions[0];
      var next := Perform(u, s, a);
      PerformLinked(o, clock, u, caps, s, a);
      PerformPosed(u, s, a);
      if a.PollAction? {
        InTimeHasBeat(o, u, period, delay, s, last, a);
        PollFeedsOn(o, clock, u, caps, s, full, epoch, a, last, period, delay);
      } else {
        McuLeavesHost(o, clock, u, caps, s, a, full, epoch);
      }
      RunsFeedOn(o, ClockAfter(clock, a), u, caps, next, full, epoch, BeatAfter(last, a), period, delay, actions[1..]);
    }
  }

  lemma InTimeHasBeat(o: u32, u: Setup, period: nat, delay: nat, s: System, last: u32, a: Action)
    requires a.PollAction? && PollInTime(o, u, period, delay, s, last, a)
    ensures a.beat.Some?
  {
  }

  lemma McuLeavesHost(o: u32, clock: u32, u: Setup, caps: HardCaps, s: System, a: Action, full: seq<Setpoint>,
                      epoch: u32)
    requires a.McuAction? && ActionTimely(o, clock, caps, a) && Feeding(s, full, epoch)
    ensures Perform(u, s, a).host == s.host && Feeding(Perform(u, s, a), full, epoch)
  {
    hide Feeding, Book;
    OwnKeepsPlan(u, s, a.event, full, epoch);
  }

  lemma FedPlanIs(s: System, full: seq<Setpoint>, epoch: u32)
    requires Feeding(s, full, epoch) && s.host.state == Active
    ensures s.ledger.plan + s.host.pending == full && (s.host.pending == [] ==> s.ledger.plan == full)
  {
  }

  /** Where the plan's last sample is on the clock of the run. */
  lemma StartTick(o: u32, clock: u32, u: Setup, caps: HardCaps, s: System, a: Action)
    requires Linked(o, clock, u, caps, s) && a.StartAction? && a.finite && ActionTimely(o, clock, caps, a)
    requires AnswerOf(u, s, a) == Accepted && a.beat.Some? && |a.points| > 0
    requires Since(o, a.beat.value) + a.points[|a.points| - 1].offset < TWO_31
    ensures Since(o, Placed(a.points, a.beat.value, 0)[|a.points| - 1].tick)
         == Since(o, a.beat.value) + a.points[|a.points| - 1].offset
  {
    hide Linked, ActionTimely, AnswerOf, FinitePlanOk, HostTick, Placed;
    StartPends(o, clock, u, caps, s, a);
    PlacedAt(o, u.cfg, u.limits, a.points, StartAdmission.Anchored(s.host, a).prepared.value, a.beat.value,
             |a.points| - 1);
  }

  /** What is pending is not after the end of the plan. */
  lemma SlackAtEnd(o: u32, cfg: Config, limits: Limits, full: seq<Setpoint>, sent: seq<Setpoint>,
                   pending: seq<Setpoint>, base: u32)
    requires GoodPlan(o, cfg, limits, full) && sent + pending == full && pending != []
    requires HasSlack(o, cfg, pending, base)
    ensures Since(o, full[|full| - 1].tick) >= Since(o, base) + Slack(cfg)
  {
    hide GoodPlan, Slack;
    assert full[|sent|] == pending[0];
    PlanSpacing(o, cfg, limits, full, |sent|, |full| - 1);
  }

  /** From the start: a finite plan that is accepted and attended often enough is
      wholly sent by the first poll that comes within the slack of its end, and
      what the MCU holds of it then is all of it. */
  lemma PlanIsWhollySent(o: u32, clock: u32, u: Setup, caps: HardCaps, s: System, a: Action, period: nat, delay: nat,
                         actions: seq<Action>)
    requires Linked(o, clock, u, caps, s) && ActionTimely(o, clock, caps, a) && Posed(s.host)
    requires a.StartAction? && a.finite && StartPasses(o, u, caps, s, a)
    requires Since(o, a.beat.value) + a.points[|a.points| - 1].offset < TWO_31
    requires RunTimely(o, ClockAfter(clock, a), caps, actions) && OftenEnough(u.cfg, period, delay)
    requires Attended(o, u, period, delay, Perform(u, s, a), a.beat.value, actions)
    ensures var end := PerformAll(u, Perform(u, s, a), actions);
            var last := LastBeat(a.beat.value, actions);
            && end.host.state == Active
            && end.ledger.plan + end.host.pending == Placed(a.points, a.beat.value, 0)
            && (Since(o, a.beat.value) + a.points[|a.points| - 1].offset < Since(o, last) + Slack(u.cfg) ==>
                  end.host.pending == [] && end.ledger.plan == Placed(a.points, a.beat.value, 0))
  {
    hide Linked, ActionTimely, Perform, ClockAfter, GoodPlan, HasSlack, OftenEnough, Attended, StartPasses, RunTimely,
         Posed, HostTick, Slack, HostStart, Placed, Feeding;
    PassingHas(o, u, caps, s, a);
    var started, full := Perform(u, s, a), Placed(a.points, a.beat.value, 0);
    HostStartsAreAccepted(o, clock, u, caps, s, a);
    StartFeeds(o, clock, u, caps, s, a);
    StartWaits(o, clock, u, caps, s, a);
    StartLeavesSlack(o, clock, u, caps, s, a);
    PerformLinked(o, clock, u, caps, s, a);
    PerformPosed(u, s, a);
    RunsFeedOn(o, ClockAfter(clock, a), u, caps, started, full, started.host.epoch, a.beat.value, period, delay,
        actions);
    var end := PerformAll(u, started, actions);
    FedPlanIs(end, full, started.host.epoch);
    if end.host.pending != [] {
      StartTick(o, clock, u, caps, s, a);
      SlackAtEnd(o, u.cfg, u.limits, full, end.ledger.plan, end.host.pending, LastBeat(a.beat.value, actions));
    }
  }

  // ---- When a turn fails ----

  /** n is how many samples may go: all of them inside the lead window, no more
      than a batch or than the queue has room for by the host's count, and no
      more could. */
  ghost predicate MayGo(cfg: Config, h: Host, base: u32, n: nat) {
    && n <= |h.pending| && (0 < n ==> n <= 9 && |FutureRoute(h.route, base)| + n <= 16)
    && (forall i :: 0 <= i < n ==> (h.pending[i].tick - base) % TWO_32 <= cfg.maximumLeadMs)
    && (n == |h.pending| || (h.pending[n].tick - base) % TWO_32 > cfg.maximumLeadMs || n == 9
        || |FutureRoute(h.route, base)| + n >= 16)
  }

  lemma CountMayGo(cfg: Config, h: Host, base: u32)
    ensures MayGo(cfg, h, base, PumpCount(cfg, h, base))
  {
    hide FutureRoute;
    CountLimits(cfg, h, base);
  }

  lemma OnlyOneMayGo(cfg: Config, h: Host, base: u32, n: nat, m: nat)
    requires MayGo(cfg, h, base, n) && MayGo(cfg, h, base, m)
    ensures n == m
  {
    hide FutureRoute;
  }

  /** A turn of the feeder with something pending fails exactly when it has no
      heartbeat, no stream, no time left before the next sample, or samples that
      may go and are not acknowledged; with nothing pending it never fails. */
  lemma TurnFails(cfg: Config, h: Host, l: Ledger, beat: Option<u32>, trip: Trip, n: nat)
    requires beat.Some? ==> MayGo(cfg, h, beat.value, n)
    ensures HostPump(cfg, h, l, beat, trip).2 != Refused
    ensures HostPump(cfg, h, l, beat, trip).2 == Failed <==>
              && h.pending != []
              && (|| beat.None? || h.horizon.None? || h.tail.None?
                  || !HostTickAfter(h.pending[0].tick, beat.value)
                  || (h.pending[0].tick - beat.value) % TWO_32 < cfg.minimumLeadMs
                  || (0 < n && !SendBatch(l, trip, AppendRequest(HorizonOf(h), h.epoch, h.pending[..n]), Append).1))
  {
    hide SendBatch, HostTickAfter, FutureRoute, AppendRequest, MayGo;
    if beat.Some? {
      CountMayGo(cfg, h, beat.value);
      OnlyOneMayGo(cfg, h, beat.value, n, PumpCount(cfg, h, beat.value));
    }
  }
}
