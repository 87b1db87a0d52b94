/** Whole runs of host and MCU together: requests that arrive late, are lost or
    go unanswered, and everything the MCU does on its own in between. */
module HostRuns {
  import opened Words
  import opened StreamContract
  import opened StreamSession
  import opened StreamExecutor
  import opened ExecutorRuns
  import opened PlanRefinement
  import opened WireCodec
  import opened HostHealth
  import opened HostAdapter
  import opened HostSimulation

  /** `beat` is the heartbeat the host last planned from. */
  datatype System = System(host: Host, ledger: Ledger, beat: u32)

  datatype Action =
    | PrepareAction(anchor: Option<Vec>)
    | StartAction(owner: string, points: seq<Point>, finite: bool, anchor: Option<Vec>, enabled: bool,
                  beat: Option<u32>, opening: Trip, trip: Trip)
    | AppendAction(owner: string, points: seq<Point>, beat: Option<u32>, trip: Trip)
    | SpliceAction(owner: string, points: seq<Point>, offset: int, beat: Option<u32>, trip: Trip)
    | PollAction(owner: string, beat: Option<u32>, trip: Trip, replies: PollReplies)
    | StopAction(owner: string, latched: bool)
    | McuAction(event: Event)

  /** What never changes during a run. */
  datatype Setup = Setup(cfg: Config, limits: Limits, authorized: bool)

  /** The system after an operation; the heartbeat counts if the route moved. */
  function Planned(s: System, r: (Host, Ledger, Answer), moved: bool, beat: Option<u32>): System {
    System(r.0, r.1, if moved && beat.Some? then beat.value else s.beat)
  }

  function Perform(u: Setup, s: System, a: Action): System {
    match a
    case PrepareAction(anchor) => s.(host := HostPrepare(s.host, anchor).0)
    case StartAction(owner, points, finite, anchor, enabled, beat, opening, trip) =>
      var r := HostStart(u.cfg, u.limits, u.authorized, s.host, s.ledger, owner, points, finite, anchor, enabled,
                         beat, opening, trip);
      Planned(s, r, r.2 == Accepted, beat)
    case AppendAction(owner, points, beat, trip) =>
      var r := HostAppend(u.cfg, u.limits, s.host, s.ledger, owner, points, beat, trip);
      Planned(s, r, r.2 == Accepted, beat)
    case SpliceAction(owner, points, offset, beat, trip) =>
      var r := HostSplice(u.cfg, u.limits, s.host, s.ledger, owner, points, offset, beat, trip);
      Planned(s, r, r.2 == Accepted, beat)
    case PollAction(owner, beat, trip, replies) =>
      var r := HostPoll(u.cfg, s.host, s.ledger, owner, beat, trip, replies);
      Planned(s, r, r.0.pending != s.host.pending, beat)
    case StopAction(owner, latched) => s.(host := HostStop(s.host, owner, latched).0)
    case McuAction(event) => s.(ledger := Book(s.ledger, event))
  }

  /** What an operation answers. */
  function AnswerOf(u: Setup, s: System, a: Action): Answer {
    match a
    case PrepareAction(anchor) => HostPrepare(s.host, anchor).1
    case StartAction(owner, points, finite, anchor, enabled, beat, opening, trip) =>
      HostStart(u.cfg, u.limits, u.authorized, s.host, s.ledger, owner, points, finite, anchor, enabled, beat, opening,
                trip).2
    case AppendAction(owner, points, beat, trip) =>
      HostAppend(u.cfg, u.limits, s.host, s.ledger, owner, points, beat, trip).2
    case SpliceAction(owner, points, offset, beat, trip) =>
      HostSplice(u.cfg, u.limits, s.host, s.ledger, owner, points, offset, beat, trip).2
    case PollAction(owner, beat, trip, replies) => HostPoll(u.cfg, s.host, s.ledger, owner, beat, trip, replies).2
    case StopAction(owner, latched) => HostStop(s.host, owner, latched).1
    case McuAction(_) => Accepted
  }

  // ---- Time ----

  /** The clock only goes forward: heartbeat, then the MCU's own events, then
      the request's arrival; and requests reach the MCU only as `WireCodec`
      encodes them. */
  ghost predicate ActionTimely(o: u32, clock: u32, caps: HardCaps, a: Action) {
    match a
    case StartAction(_, _, _, _, _, beat, opening, trip) =>
      beat.Some? ==> Prompt(o, clock, caps, beat.value, opening) && TripTimely(o, opening.at, caps, trip)
    case AppendAction(_, _, beat, trip) => beat.Some? ==> Prompt(o, clock, caps, beat.value, trip)
    case SpliceAction(_, _, _, beat, trip) => beat.Some? ==> Prompt(o, clock, caps, beat.value, trip)
    case PollAction(_, beat, trip, _) => beat.Some? ==> Prompt(o, clock, caps, beat.value, trip)
    case McuAction(event) => OwnEvent(event) && Timely(o, clock, caps, event)
    case _ => true
  }

  function ClockAfter(clock: u32, a: Action): u32 {
    match a
    case StartAction(_, _, _, _, _, beat, opening, trip) => if beat.Some? then trip.at else clock
    case AppendAction(_, _, beat, trip) => if beat.Some? then trip.at else clock
    case SpliceAction(_, _, _, beat, trip) => if beat.Some? then trip.at else clock
    case PollAction(_, beat, trip, _) => if beat.Some? then trip.at else clock
    case McuAction(event) => event.now
    case _ => clock
  }

  // ---- The invariant ----

  ghost predicate Linked(o: u32, clock: u32, u: Setup, caps: HardCaps, s: System) {
    && Refines(o, clock, s.ledger)
    && s.ledger.exec.limits == u.limits && s.ledger.exec.caps == caps
    && (s.host.state == Active ==> s.host.owner.Some? && InStep(o, clock, u.cfg, s.host, s.ledger, s.beat))
  }

  lemma LinkedLater(o: u32, clock: u32, later: u32, u: Setup, caps: HardCaps, s: System)
    requires Linked(o, clock, u, caps, s) && Since(o, clock) <= Since(o, later)
    ensures Linked(o, later, u, caps, s)
  {
    hide Refines;
    RefinesLater(o, clock, later, s.ledger);
  }

  lemma AppendAtLinked(o: u32, clock: u32, u: Setup, caps: HardCaps, s: System, points: seq<Point>, base: u32,
                       trip: Trip)
    requires Linked(o, clock, u, caps, s) && s.host.state == Active && Prompt(o, clock, caps, base, trip)
    ensures var (h, after, answer) := HostAppendAt(u.cfg, u.limits, s.host, s.ledger, points, base, trip);
            Linked(o, trip.at, u, caps, System(h, after, if answer == Accepted then base else s.beat))
  {
    hide Refines, InStep, SendBatch, PointsOk, TripTimely, HostTickAfter, HostTick, Distance;
    AtTrip(o, clock, caps, base, trip);
    RefinesLater(o, clock, trip.at, s.ledger);
    ActiveTail(o, clock, u.cfg, s.host, s.ledger, s.beat);
    if points != [] {
      var shift := AppendShift(HostTick(base, points[0].offset), s.host.tail.value.tick);
      var samples := Placed(points, base, shift);
      AppendInStep(o, clock, u.cfg, s.host, s.ledger, s.beat, base, trip, samples,
                   HostAppendAt(u.cfg, u.limits, s.host, s.ledger, points, base, trip).0);
    }
  }

  lemma AtTrip(o: u32, clock: u32, caps: HardCaps, base: u32, trip: Trip)
    requires Prompt(o, clock, caps, base, trip)
    ensures Since(o, clock) <= Since(o, base) <= Since(o, trip.at)
  {
    hide TimelyRun;
  }

  lemma ActiveTail(o: u32, clock: u32, cfg: Config, h: Host, l: Ledger, beat: u32)
    requires InStep(o, clock, cfg, h, l, beat)
    ensures h.tail.Some? && h.route != [] && h.tail.value == h.route[|h.route| - 1]
  {
  }

  lemma SpliceAtLinked(o: u32, clock: u32, u: Setup, caps: HardCaps, s: System, points: seq<Point>, offset: int,
                       base: u32, trip: Trip)
    requires Linked(o, clock, u, caps, s) && s.host.state == Active && Prompt(o, clock, caps, base, trip)
    requires |points| > 0
    ensures s.host.tail.Some?
    ensures var (h, after, answer) := HostSpliceAt(u.cfg, u.limits, s.host, s.ledger, points, offset, base, trip);
            Linked(o, trip.at, u, caps, System(h, after, if answer == Accepted then base else s.beat))
  {
    hide Refines, InStep, SendBatch, PointsOk, TripTimely, HostTickAfter, HostTick, Distance, InterpolateRoute,
         FutureRoute, RetainedRoute;
    AtTrip(o, clock, caps, base, trip);
    RefinesLater(o, clock, trip.at, s.ledger);
    ActiveTail(o, clock, u.cfg, s.host, s.ledger, s.beat);
    var shift := SpliceShift(HostTick(base, offset), s.host.tail.value.tick);
    var at := HostTick(base, offset + shift);
    var continuity := InterpolateRoute(FutureRoute(s.host.route, base), at);
    if continuity.Some? {
      var samples := [Setpoint(at, continuity.value)] + Placed(points, base, shift);
      SpliceInStep(o, clock, u.cfg, s.host, s.ledger, s.beat, base, trip, at, NextEpoch(s.host.epoch), samples,
                   HostSpliceAt(u.cfg, u.limits, s.host, s.ledger, points, offset, base, trip).0);
    }
  }

  lemma PumpLinked(o: u32, clock: u32, u: Setup, caps: HardCaps, s: System, beat: Option<u32>, trip: Trip)
    requires Linked(o, clock, u, caps, s) && s.host.state == Active
    requires beat.Some? ==> Prompt(o, clock, caps, beat.value, trip)
    ensures var (h, after, answer) := HostPump(u.cfg, s.host, s.ledger, beat, trip);
            && Linked(o, if beat.Some? then trip.at else clock, u, caps,
                      System(h, after, if h.pending != s.host.pending && beat.Some? then beat.value else s.beat))
            && (answer == Accepted ==> h.state == Active)
  {
    hide Refines, InStep, SendBatch, TripTimely, HostTickAfter, Distance, FutureRoute;
    ActiveTail(o, clock, u.cfg, s.host, s.ledger, s.beat);
    if beat.Some? {
      AtTrip(o, clock, caps, beat.value, trip);
      LinkedLater(o, clock, trip.at, u, caps, s);
      var n := ReadyCount(u.cfg, s.host.pending, beat.value, CountLimit(|FutureRoute(s.host.route, beat.value)|), 0);
      AppendInStep(o, clock, u.cfg, s.host, s.ledger, s.beat, beat.value, trip, s.host.pending[..n],
                   HostPump(u.cfg, s.host, s.ledger, beat, trip).0);
    }
  }

  lemma PollLinked(o: u32, clock: u32, u: Setup, caps: HardCaps, s: System, owner: string, beat: Option<u32>,
                   trip: Trip, replies: PollReplies)
    requires Linked(o, clock, u, caps, s)
    requires beat.Some? ==> Prompt(o, clock, caps, beat.value, trip)
    ensures Linked(o, if beat.Some? then trip.at else clock, u, caps, Perform(u, s, PollAction(owner, beat, trip,
        replies)))
  {
    hide Refines, InStep, HostPump, Prompt;
    if beat.Some? {
      Prompted(o, clock, caps, beat.value, trip);
      LinkedLater(o, clock, trip.at, u, caps, s);
    }
    if s.host.state == Active {
      PumpLinked(o, clock, u, caps, s, beat, trip);
    }
  }

  lemma Prompted(o: u32, clock: u32, caps: HardCaps, base: u32, trip: Trip)
    requires Prompt(o, clock, caps, base, trip)
    ensures Since(o, clock) <= Since(o, trip.at)
  {
    hide TimelyRun;
  }

  lemma StartLinked(o: u32, clock: u32, u: Setup, caps: HardCaps, s: System, a: Action)
    requires Linked(o, clock, u, caps, s) && a.StartAction? && ActionTimely(o, clock, caps, a)
    ensures Linked(o, ClockAfter(clock, a), u, caps, Perform(u, s, a))
  {
    hide Refines, InStep, HostOpen, TripTimely, FirstRoute;
    if a.beat.Some? {
      StartTimes(o, clock, caps, a);
      LinkedLater(o, clock, a.trip.at, u, caps, s);
      var h := s.host;
      var h1 := if h.armed then h else h.(prepared := a.anchor);
      if h1.prepared.Some? {
        var count := FirstRoute(u.cfg, u.limits, a.points, a.finite, h1.prepared.value);
        var claimed := Claim(h1, a.owner);
        if count.Some? && claimed.Some? {
          var h2 := claimed.value.(armed := true,
              epoch := if h1.owner.Some? then NextEpoch(h1.epoch) else claimed.value.epoch);
          var first, later := Placed(a.points[..count.value], a.beat.value, 0), Placed(a.points[count.value..],
              a.beat.value, 0);
          OpenInStep(o, clock, u.cfg, h2, s.ledger, first, later, a.finite, a.beat.value, a.opening, a.trip);
          OpenKeepsOwner(u.cfg, h2, s.ledger, first, later, a.finite, a.opening, a.trip);
        }
      }
    }
  }

  lemma OpenKeepsOwner(cfg: Config, h: Host, l: Ledger, first: seq<Setpoint>, later: seq<Setpoint>, finite: bool,
                       opening: Trip, trip: Trip)
    ensures HostOpen(cfg, h, l, first, later, finite, opening, trip).0.owner == h.owner
  {
    hide SendOpen, SendBatch, PolicyRequest, AppendRequest;
  }

  lemma StartTimes(o: u32, clock: u32, caps: HardCaps, a: Action)
    requires a.StartAction? && a.beat.Some? && ActionTimely(o, clock, caps, a)
    ensures Since(o, clock) <= Since(o, a.beat.value) <= Since(o, a.opening.at) <= Since(o, a.trip.at)
  {
    hide TimelyRun;
  }

  lemma PerformLinked(o: u32, clock: u32, u: Setup, caps: HardCaps, s: System, a: Action)
    requires Linked(o, clock, u, caps, s) && ActionTimely(o, clock, caps, a)
    ensures Linked(o, ClockAfter(clock, a), u, caps, Perform(u, s, a))
  {
    hide Refines, InStep, HostStart, HostAppendAt, HostSpliceAt, HostPoll, Prompt, PointsOk;
    match a
    case PrepareAction(anchor) =>
    case StartAction(_, _, _, _, _, _, _, _) => StartLinked(o, clock, u, caps, s, a);
    case AppendAction(owner, points, beat, trip) =>
      if beat.Some? {
        Prompted(o, clock, caps, beat.value, trip);
        LinkedLater(o, clock, trip.at, u, caps, s);
        if s.host.state == Active {
          AppendAtLinked(o, clock, u, caps, s, points, beat.value, trip);
        }
      }
    case SpliceAction(owner, points, offset, beat, trip) =>
      if beat.Some? {
        Prompted(o, clock, caps, beat.value, trip);
        LinkedLater(o, clock, trip.at, u, caps, s);
        if s.host.state == Active && |points| > 0 {
          SpliceAtLinked(o, clock, u, caps, s, points, offset, beat.value, trip);
        }
      }
    case PollAction(owner, beat, trip, replies) => PollLinked(o, clock, u, caps, s, owner, beat, trip, replies);
    case StopAction(owner, latched) =>
    case McuAction(event) => McuLinked(o, clock, u, caps, s, event);
  }

  lemma McuLinked(o: u32, clock: u32, u: Setup, caps: HardCaps, s: System, event: Event)
    requires Linked(o, clock, u, caps, s) && OwnEvent(event) && Timely(o, clock, caps, event)
    ensures Linked(o, event.now, u, caps, Perform(u, s, McuAction(event)))
  {
    hide Refines, Book, OwnEvent;
    BookRefines(o, clock, s.ledger, event);
    OwnEventKeeps(s.ledger, event);
  }

  // ---- Runs ----

  function PerformAll(u: Setup, s: System, actions: seq<Action>): System
    decreases |actions|
  {
    if actions == [] then s else PerformAll(u, Perform(u, s, actions[0]), actions[1..])
  }

  ghost predicate RunTimely(o: u32, clock: u32, caps: HardCaps, actions: seq<Action>)
    decreases |actions|
  {
    actions == []
    || (ActionTimely(o, clock, caps, actions[0]) && RunTimely(o, ClockAfter(clock, actions[0]), caps, actions[1..]))
  }

  function ClockAfterAll(clock: u32, actions: seq<Action>): u32
    decreases |actions|
  {
    if actions == [] then clock else ClockAfterAll(ClockAfter(clock, actions[0]), actions[1..])
  }

  /** Host/firmware simulation over whole runs: start, append, feeder, splice,
      poll, stop, faults, lost requests and lost answers, with the MCU running
      on its own in between, keep host and MCU in step. */
  lemma {:induction false} RunsStayLinked(o: u32, clock: u32, u: Setup, caps: HardCaps, s: System, actions: seq<Action>)
    requires Linked(o, clock, u, caps, s) && RunTimely(o, clock, caps, actions)
    ensures Linked(o, ClockAfterAll(clock, actions), u, caps, PerformAll(u, s, actions))
    decreases |actions|
  {
    hide Linked, ActionTimely, Perform, ClockAfter;
    if actions != [] {
      PerformLinked(o, clock, u, caps, s, actions[0]);
      RunsStayLinked(o, ClockAfter(clock, actions[0]), u, caps, Perform(u, s, actions[0]), actions[1..]);
    }
  }

  /** A new adapter beside a reset MCU. */
  function Initial(u: Setup, caps: HardCaps): System {
    System(NEW_HOST, Ledger(ExecInit(caps, u.limits), [], []), 0)
  }

  lemma InitialLinked(o: u32, u: Setup, caps: HardCaps)
    ensures Linked(o, o, u, caps, Initial(u, caps))
  {
    InitIsSound(caps, u.limits);
  }

  /** From a new adapter beside a reset MCU, every run keeps them in step. */
  lemma RunsFromReset(o: u32, u: Setup, caps: HardCaps, actions: seq<Action>)
    requires RunTimely(o, o, caps, actions)
    ensures Linked(o, ClockAfterAll(o, actions), u, caps, PerformAll(u, Initial(u, caps), actions))
  {
    hide Linked, RunTimely, Initial;
    InitialLinked(o, u, caps);
    RunsStayLinked(o, o, u, caps, Initial(u, caps), actions);
  }
}
