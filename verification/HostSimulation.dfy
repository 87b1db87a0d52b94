/** Host and firmware as one system: the host's route is always the part of the
    MCU's plan after the heartbeat it last planned from. */
module HostSimulation {
  import opened Words
  import opened StreamContract
  import opened StreamSession
  import opened StreamExecutor
  import opened ExecutorRuns
  import opened Timeline
  import opened PlanRefinement
  import opened WireCodec
  import opened HostAdapter

  // ---- Routes as parts of a plan ----

  lemma {:induction false} FutureConcat(a: seq<Setpoint>, b: seq<Setpoint>, base: u32)
    ensures FutureRoute(a + b, base) == FutureRoute(a, base) + FutureRoute(b, base)
    decreases |a|
  {
    hide HostTickAfter;
    if a == [] {
      assert a + b == b;
    } else {
      assert (a + b)[1..] == a[1..] + b && (a + b)[0] == a[0];
      FutureConcat(a[1..], b, base);
      var head := if HostTickAfter(a[0].tick, base) then [a[0]] else [];
      assert FutureRoute(a, base) == head + FutureRoute(a[1..], base);
      assert head + (FutureRoute(a[1..], base) + FutureRoute(b, base)) == FutureRoute(a, base) + FutureRoute(b, base);
    }
  }

  lemma {:induction false} AllFuture(o: u32, route: seq<Setpoint>, base: u32)
    requires Since(o, base) < TWO_31
    requires forall i :: 0 <= i < |route| ==> Since(o, base) < Since(o, route[i].tick) < TWO_31
    ensures FutureRoute(route, base) == route
  {
    if route != [] {
      TickOrdersAgree(route[0].tick, base);
      HalfWindow(o, route[0].tick, base);
      AllFuture(o, route[1..], base);
    }
  }

  lemma {:induction false} NoneFuture(o: u32, route: seq<Setpoint>, base: u32)
    requires Since(o, base) < TWO_31
    requires forall i :: 0 <= i < |route| ==> Since(o, route[i].tick) <= Since(o, base)
    ensures FutureRoute(route, base) == []
  {
    if route != [] {
      TickOrdersAgree(route[0].tick, base);
      HalfWindow(o, route[0].tick, base);
      NoneFuture(o, route[1..], base);
    }
  }

  /** On an ordered plan the filter is a cut: what it drops is what is not
      after `base`. */
  lemma {:induction false} FutureIsCut(o: u32, plan: seq<Setpoint>, base: u32) returns (k: nat)
    requires Ordered(o, plan) && Since(o, base) < TWO_31
    ensures k <= |plan| && FutureRoute(plan, base) == plan[k..]
    ensures forall i :: 0 <= i < |plan| ==> (i < k <==> Since(o, plan[i].tick) <= Since(o, base))
    decreases |plan|
  {
    if plan == [] || Since(o, base) < Since(o, plan[0].tick) {
      AllFuture(o, plan, base);
      k := 0;
    } else {
      TickOrdersAgree(plan[0].tick, base);
      HalfWindow(o, plan[0].tick, base);
      OrderedSlice(o, plan, 1, |plan|);
      assert plan[1..|plan|] == plan[1..];
      var rest := FutureIsCut(o, plan[1..], base);
      k := rest + 1;
      forall i | 0 <= i < |plan|
        ensures i < k <==> Since(o, plan[i].tick) <= Since(o, base)
      {
        if 0 < i {
          assert plan[i] == plan[1..][i - 1];
        }
      }
    }
  }

  /** Dropping twice is dropping once, at the later tick. */
  lemma FutureTwice(o: u32, plan: seq<Setpoint>, base: u32, later: u32)
    requires Ordered(o, plan) && Since(o, base) <= Since(o, later) < TWO_31
    ensures FutureRoute(FutureRoute(plan, base), later) == FutureRoute(plan, later)
  {
    var k := FutureIsCut(o, plan, base);
    assert plan == plan[..k] + plan[k..];
    FutureConcat(plan[..k], plan[k..], later);
    NoneFuture(o, plan[..k], later);
  }

  lemma {:induction false} RetainedIsBefore(route: seq<Setpoint>, tick: u32)
    ensures RetainedRoute(route, tick) == Before(route, tick)
  {
    if route != [] {
      TickOrdersAgree(tick, route[0].tick);
      RetainedIsBefore(route[1..], tick);
    }
  }

  /** Cutting at a later tick and dropping the past commute. */
  lemma CutAndDrop(o: u32, plan: seq<Setpoint>, base: u32, at: u32)
    requires Ordered(o, plan) && Since(o, base) < Since(o, at) < TWO_31
    ensures FutureRoute(Before(plan, at), base) == RetainedRoute(FutureRoute(plan, base), at)
  {
    hide HostTickAfter, FutureRoute, RetainedRoute, Before;
    var k := FutureIsCut(o, plan, base);
    var gone, future := plan[..k], plan[k..];
    assert plan == gone + future;
    forall i | 0 <= i < |gone|
      ensures TickAfter(at, gone[i].tick)
    {
      HalfWindow(o, at, gone[i].tick);
    }
    BeforeAll(gone, future, at);
    FutureConcat(gone, Before(future, at), base);
    NoneFuture(o, gone, base);
    OrderedSlice(o, plan, k, |plan|);
    assert plan[k..|plan|] == future;
    BeforeIsRetained(o, future, at);
    AllFuture(o, Before(future, at), base);
    RetainedIsBefore(future, at);
  }

  // ---- What the MCU does on its own ----

  predicate OwnEvent(event: Event) {
    event.StartEvent? || event.StepEvent? || event.FeedbackEvent?
  }

  /** The parts of a session that only requests change. */
  function Terms(s: Session): Session {
    s.(samples := [])
  }

  lemma OwnEventKeeps(l: Ledger, event: Event)
    requires OwnEvent(event)
    ensures Book(l, event).plan == l.plan
    ensures Terms(Book(l, event).exec.session) == Terms(l.exec.session)
    ensures Book(l, event).exec.limits == l.exec.limits && Book(l, event).exec.caps == l.exec.caps
  {
    if event.StepEvent? {
      StepShape(l.exec, event.now);
      StepLimits(l.exec, event.now);
    }
  }

  lemma StepLimits(e: Executor, now: u32)
    ensures ExecStep(e, now).0.limits == e.limits && ExecStep(e, now).0.caps == e.caps
  {
    hide FirstControlTick, LerpVec, TimedOut;
  }

  lemma {:induction false} OwnEventsKeep(l: Ledger, events: seq<Event>)
    requires forall i :: 0 <= i < |events| ==> OwnEvent(events[i])
    ensures BookAll(l, events).plan == l.plan
    ensures Terms(BookAll(l, events).exec.session) == Terms(l.exec.session)
    ensures BookAll(l, events).exec.limits == l.exec.limits && BookAll(l, events).exec.caps == l.exec.caps
    decreases |events|
  {
    hide Book, OwnEvent;
    if events != [] {
      OwnEventKeeps(l, events[0]);
      OwnEventsKeep(Book(l, events[0]), events[1..]);
    }
  }

  // ---- One request ----

  ghost predicate TripTimely(o: u32, clock: u32, caps: HardCaps, trip: Trip) {
    && (forall i :: 0 <= i < |trip.meanwhile| ==> OwnEvent(trip.meanwhile[i]))
    && TimelyRun(o, clock, caps, trip.meanwhile)
    && Since(o, clock) <= Since(o, EndClock(clock, trip.meanwhile)) <= Since(o, trip.at)
    && Since(o, trip.at) + caps.maximumLeadMs + CONTROL_TICK_MS < TWO_31
  }

  lemma TripBound(o: u32, clock: u32, caps: HardCaps, trip: Trip)
    requires TripTimely(o, clock, caps, trip)
    ensures Since(o, clock) <= Since(o, EndClock(clock, trip.meanwhile)) <= Since(o, trip.at)
    ensures Since(o, trip.at) + caps.maximumLeadMs + CONTROL_TICK_MS < TWO_31
  {
    hide TimelyRun;
  }

  lemma RefinesLater(o: u32, clock: u32, later: u32, l: Ledger)
    requires Refines(o, clock, l) && Since(o, clock) <= Since(o, later)
    ensures Refines(o, later, l)
  {
    hide Sound, Ordered, Near;
  }

  /** The MCU when a request reaches it. */
  lemma Meanwhile(o: u32, clock: u32, l: Ledger, trip: Trip)
    requires Refines(o, clock, l) && TripTimely(o, clock, l.exec.caps, trip)
    ensures var mid := BookAll(l, trip.meanwhile);
            && Refines(o, EndClock(clock, trip.meanwhile), mid) && Refines(o, trip.at, mid)
            && mid.plan == l.plan && Terms(mid.exec.session) == Terms(l.exec.session)
            && mid.exec.limits == l.exec.limits && mid.exec.caps == l.exec.caps
  {
    hide Refines, TimelyRun, Terms, OwnEvent;
    RunsRefine(o, clock, l, trip.meanwhile);
    OwnEventsKeep(l, trip.meanwhile);
    RefinesLater(o, EndClock(clock, trip.meanwhile), trip.at, BookAll(l, trip.meanwhile));
  }

  /** What a batch that the MCU admitted on arrival left behind. */
  ghost predicate Admitted(mid: Ledger, after: Ledger, b: Batch, kind: Kind, at: u32) {
    && 0 < |b.samples| <= WIRE_MAX_SAMPLES
    && WellDecoded(b) && WireOrdered(b)
    && mid.exec.diag.state in {Priming, Running}
    && ExecAdmitBatch(mid.exec, b, kind, at).1 == Done
    && after.exec == ExecAdmitBatch(mid.exec, b, kind, at).0
    && after.plan == (if kind == Append then mid.plan else Before(mid.plan, b.spliceAtTick)) + b.samples
  }

  /** A batch of the host's own making, sent. The MCU keeps refining its plan
      whatever happens, and an acknowledged batch is an admitted one. */
  lemma Delivered(o: u32, clock: u32, l: Ledger, trip: Trip, b: Batch, kind: Kind)
    requires Refines(o, clock, l) && TripTimely(o, clock, l.exec.caps, trip)
    requires |b.samples| > 0 ==> b.firstApplyTick == b.samples[0].tick
    ensures var (after, ok) := SendBatch(l, trip, AsHostBatch(b), kind);
            && Refines(o, trip.at, after)
            && after.exec.limits == l.exec.limits && after.exec.caps == l.exec.caps
            && (ok ==> Admitted(BookAll(l, trip.meanwhile), after, b, kind, trip.at))
  {
    hide EncodeBatch, DecodeBatch, Refines, ExecAdmitBatch, WireOrdered, Terms, TripTimely, AsHostBatch;
    var encoded := EncodeBatch(AsHostBatch(b), kind);
    RefinesWhenSent(o, clock, l, trip);
    if encoded.Some? {
      var payload := encoded.value;
      EncodedHasSamples(b, kind);
      BatchWire(b, kind, payload);
      Meanwhile(o, clock, l, trip);
      var mid := BookAll(l, trip.meanwhile);
      DecodedBatch(payload, kind);
      Arrives(o, clock, mid, trip, payload, kind);
    }
  }

  lemma RefinesWhenSent(o: u32, clock: u32, l: Ledger, trip: Trip)
    requires Refines(o, clock, l) && TripTimely(o, clock, l.exec.caps, trip)
    ensures Refines(o, trip.at, l)
  {
    hide Refines, TimelyRun;
    RefinesLater(o, clock, trip.at, l);
  }

  lemma EncodedHasSamples(b: Batch, kind: Kind)
    requires EncodeBatch(AsHostBatch(b), kind).Some?
    ensures 1 <= |b.samples| <= WIRE_MAX_SAMPLES
  {
  }

  lemma Arrives(o: u32, clock: u32, mid: Ledger, trip: Trip, payload: seq<u8>, kind: Kind)
    requires Refines(o, EndClock(clock, trip.meanwhile), mid) && TripTimely(o, clock, mid.exec.caps, trip)
    requires DecodeBatch(payload, kind).Ok? && WireOrdered(DecodeBatch(payload, kind).value)
    ensures Refines(o, trip.at, Book(mid, AdmitEvent(payload, kind, trip.at)))
    ensures Book(mid, AdmitEvent(payload, kind, trip.at)).exec.limits == mid.exec.limits
    ensures Book(mid, AdmitEvent(payload, kind, trip.at)).exec.caps == mid.exec.caps
  {
    hide Refines, TimelyRun, DecodeBatch, WireOrdered;
    BookRefines(o, EndClock(clock, trip.meanwhile), mid, AdmitEvent(payload, kind, trip.at));
    RefinesSound(o, EndClock(clock, trip.meanwhile), mid);
    KeptLimits(mid, AdmitEvent(payload, kind, trip.at));
  }

  lemma KeptLimits(l: Ledger, event: Event)
    requires Sound(l.exec)
    ensures Book(l, event).exec.limits == l.exec.limits && Book(l, event).exec.caps == l.exec.caps
  {
    hide Sound, Handle;
    HandleKeeps(l.exec, event);
  }

  // ---- Host and MCU in step ----

  /** While the host is active its route is the MCU's plan after the last
      heartbeat it planned from, and both agree on epoch, horizon and policy. */
  ghost predicate InStep(o: u32, clock: u32, cfg: Config, h: Host, l: Ledger, beat: u32) {
    var s := l.exec.session;
    && Since(o, beat) <= Since(o, clock) && Since(o, beat) < TWO_31
    && h.route == FutureRoute(l.plan, beat)
    && h.route != [] && h.tail == Some(h.route[|h.route| - 1])
    && s.open && s.epochEstablished && s.arbiterEpoch == h.epoch && s.horizonEndTick == HorizonOf(h)
    && AsHostPolicy(s.policy) == PolicyRequest(cfg, HorizonOf(h))
  }

  /** The batch behind a request. */
  function Request(horizon: u32, epoch: u32, at: u32, samples: seq<Setpoint>): Batch {
    Batch(if samples == [] then 0 else samples[0].tick, horizon, epoch, at, ARM_MASK_BOTH, samples)
  }

  lemma RequestsAre(horizon: u32, epoch: u32, at: u32, samples: seq<Setpoint>)
    ensures AppendRequest(horizon, epoch, samples) == AsHostBatch(Request(horizon, epoch, 0, samples))
    ensures SpliceRequest(epoch, at, samples) == AsHostBatch(Request(0, epoch, at, samples))
  {
    assert AsHostSamples(samples) == AsHostBatch(Request(horizon, epoch, at, samples)).samples;
  }

  /** The heartbeat a host operation plans from, and the request after it. */
  ghost predicate Prompt(o: u32, clock: u32, caps: HardCaps, base: u32, trip: Trip) {
    Since(o, clock) <= Since(o, base) && TripTimely(o, base, caps, trip)
  }

  /** An acknowledged append keeps host and MCU in step. */
  lemma AppendInStep(o: u32, clock: u32, cfg: Config, h: Host, l: Ledger, beat: u32,
                     base: u32, trip: Trip, samples: seq<Setpoint>, next: Host)
    requires Refines(o, clock, l) && InStep(o, clock, cfg, h, l, beat) && Prompt(o, clock, l.exec.caps, base, trip)
    ensures var (after, ok) := SendBatch(l, trip, AppendRequest(HorizonOf(h), h.epoch, samples), Append);
            && Refines(o, trip.at, after) && after.exec.limits == l.exec.limits && after.exec.caps == l.exec.caps
            && (ok ==> && after.plan == l.plan + samples
                       && (next.route == FutureRoute(h.route,
                           base) + samples && next.tail == Some(samples[|samples| - 1])
                           && next.epoch == h.epoch && next.horizon == h.horizon ==>
                             InStep(o, trip.at, cfg, next, after, base)))
  {
    hide Refines, ExecAdmitBatch, TripTimely, WireOrdered, WellDecoded, AsHostBatch, AppendRequest, SpliceRequest,
         SendBatch,
         FutureRoute, Before, Ordered;
    TripBound(o, base, l.exec.caps, trip);
    var b := Request(HorizonOf(h), h.epoch, 0, samples);
    RequestsAre(HorizonOf(h), h.epoch, 0, samples);
    RefinesLater(o, clock, base, l);
    Delivered(o, base, l, trip, b, Append);
    var (after, ok) := SendBatch(l, trip, AppendRequest(HorizonOf(h), h.epoch, samples), Append);
    if ok {
      Meanwhile(o, base, l, trip);
      var mid := BookAll(l, trip.meanwhile);
      AdmittedShape(mid.exec, b, Append, trip.at);
      AdmittedAfter(o, base, mid, after, b, Append, trip);
      PlanOrdered(o, clock, l);
      FutureTwice(o, l.plan, beat, base);
      FutureConcat(l.plan, samples, base);
      AllFuture(o, samples, base);
    }
  }

  lemma PlanOrdered(o: u32, clock: u32, l: Ledger)
    requires Refines(o, clock, l)
    ensures Ordered(o, l.plan) && Ordered(o, l.exec.session.samples)
  {
    hide Sound, Ordered, Near;
    QueueOrdered(o, clock, l.applied, l.exec.session.samples, l.plan);
  }

  /** Admitted samples come after the tick they arrived at. */
  lemma AdmittedAfter(o: u32, base: u32, mid: Ledger, after: Ledger, b: Batch, kind: Kind, trip: Trip)
    requires Refines(o, trip.at, mid) && Admitted(mid, after, b, kind, trip.at)
    requires Since(o, base) <= Since(o, trip.at)
    requires Since(o, trip.at) + mid.exec.caps.maximumLeadMs + CONTROL_TICK_MS < TWO_31
    ensures forall i :: 0 <= i < |b.samples| ==> Since(o, base) < Since(o, b.samples[i].tick) < TWO_31
    ensures kind == Splice ==> b.samples[0].tick == b.spliceAtTick
  {
    hide ExecAdmitBatch, WireOrdered, Sound;
    PlanOrdered(o, trip.at, mid);
    RefinesSound(o, trip.at, mid);
    AdmittedTicks(o, mid.exec, b, kind, trip.at);
  }

  lemma RefinesSound(o: u32, clock: u32, l: Ledger)
    requires Refines(o, clock, l)
    ensures Sound(l.exec)
  {
  }

  /** An acknowledged splice keeps host and MCU in step. */
  lemma SpliceInStep(o: u32, clock: u32, cfg: Config, h: Host, l: Ledger, beat: u32,
                     base: u32, trip: Trip, at: u32, epoch: u32, samples: seq<Setpoint>, next: Host)
    requires Refines(o, clock, l) && InStep(o, clock, cfg, h, l, beat) && Prompt(o, clock, l.exec.caps, base, trip)
    requires samples != [] && samples[0].tick == at && epoch != h.epoch
    ensures var (after, ok) := SendBatch(l, trip, SpliceRequest(epoch, at, samples), Splice);
            && Refines(o, trip.at, after) && after.exec.limits == l.exec.limits && after.exec.caps == l.exec.caps
            && (ok ==> && after.plan == Before(l.plan, at) + samples && HorizonOf(h) == 0
                       && (next.route == RetainedRoute(FutureRoute(h.route, base), at) + samples
                           && next.tail == Some(samples[|samples| - 1])
                           && next.epoch == epoch && next.horizon == h.horizon ==>
                             InStep(o, trip.at, cfg, next, after, base)))
  {
    hide Refines, ExecAdmitBatch, TripTimely, WireOrdered, WellDecoded, AsHostBatch, AppendRequest, SpliceRequest,
         SendBatch,
         FutureRoute, Before, Ordered;
    TripBound(o, base, l.exec.caps, trip);
    var b := Request(0, epoch, at, samples);
    RequestsAre(0, epoch, at, samples);
    RefinesLater(o, clock, base, l);
    Delivered(o, base, l, trip, b, Splice);
    var (after, ok) := SendBatch(l, trip, SpliceRequest(epoch, at, samples), Splice);
    if ok {
      Meanwhile(o, base, l, trip);
      var mid := BookAll(l, trip.meanwhile);
      AdmittedShape(mid.exec, b, Splice, trip.at);
      AdmittedAfter(o, base, mid, after, b, Splice, trip);
      SpliceOpenEnded(mid.exec, b, trip.at);
      PlanOrdered(o, clock, l);
      FutureTwice(o, l.plan, beat, base);
      CutAndDrop(o, l.plan, base, at);
      FutureConcat(Before(l.plan, at), samples, base);
      AllFuture(o, samples, base);
    }
  }

  /** A splice without a horizon is only admitted to a stream without one. */
  lemma SpliceOpenEnded(e: Executor, b: Batch, now: u32)
    requires 0 < |b.samples| <= WIRE_MAX_SAMPLES && b.horizonEndTick == 0
    requires ExecAdmitBatch(e, b, Splice, now).1 == Done
    ensures e.session.horizonEndTick == 0
  {
    hide ExecAdmitBatch, StepsAllowed, WithinOneStep;
    var at := AdmittedVerdict(e, b, Splice, now);
  }

  /** A stream the host has just opened. */
  ghost predicate JustOpened(l: Ledger, p: HostPolicy) {
    var s := l.exec.session;
    && l.plan == [] && s.open && !s.epochEstablished
    && AsHostPolicy(s.policy) == p && s.horizonEndTick == p.horizonEndTick
  }

  /** The first batch of a stream just opened puts host and MCU in step. */
  lemma FirstInStep(o: u32, clock: u32, base: u32, cfg: Config, h: Host, l: Ledger, first: seq<Setpoint>,
                    horizon: u32, trip: Trip, next: Host)
    requires Refines(o, clock, l) && TripTimely(o, clock, l.exec.caps, trip)
    requires Since(o, base) <= Since(o, clock) && JustOpened(l, PolicyRequest(cfg, horizon))
    ensures var (after, ok) := SendBatch(l, trip, AppendRequest(horizon, h.epoch, first), Append);
            && Refines(o, trip.at, after) && after.exec.limits == l.exec.limits && after.exec.caps == l.exec.caps
            && (ok ==> && after.plan == first
                       && (next.route == first && first != [] && next.tail == Some(first[|first| - 1])
                           && next.epoch == h.epoch && HorizonOf(next) == horizon ==>
                             InStep(o, trip.at, cfg, next, after, base)))
  {
    hide Refines, ExecAdmitBatch, TripTimely, WireOrdered, WellDecoded, AsHostBatch, AppendRequest, SendBatch,
         FutureRoute;
    TripBound(o, clock, l.exec.caps, trip);
    var b := Request(horizon, h.epoch, 0, first);
    RequestsAre(horizon, h.epoch, 0, first);
    Delivered(o, clock, l, trip, b, Append);
    var (after, ok) := SendBatch(l, trip, AppendRequest(horizon, h.epoch, first), Append);
    if ok {
      Meanwhile(o, clock, l, trip);
      var mid := BookAll(l, trip.meanwhile);
      AdmittedShape(mid.exec, b, Append, trip.at);
      AdmittedAfter(o, base, mid, after, b, Append, trip);
      assert [] + first == first;
      AllFuture(o, first, base);
    }
  }

  /** A stream just opened and primed by the host is in step. */
  lemma OpenInStep(o: u32, clock: u32, cfg: Config, h: Host, l: Ledger, first: seq<Setpoint>, later: seq<Setpoint>,
                   finite: bool, base: u32, opening: Trip, trip: Trip)
    requires Refines(o, clock, l) && Prompt(o, clock, l.exec.caps, base, opening)
    requires TripTimely(o, opening.at, l.exec.caps, trip)
    ensures var (h', after, answer) := HostOpen(cfg, h, l, first, later, finite, opening, trip);
            && Refines(o, trip.at, after) && after.exec.limits == l.exec.limits && after.exec.caps == l.exec.caps
            && (answer == HostAdapter.Accepted ==>
                  && h'.state == Active && InStep(o, trip.at, cfg, h', after, base)
                  && after.plan == first && h'.pending == later && h'.epoch == h.epoch
                  && (finite ==> h'.horizon == Some((first + later)[|first + later| - 1].tick)))
            && (answer != HostAdapter.Accepted ==> h'.state == Faulted)
  {
    hide Refines, TimelyRun, SendBatch, SendOpen, PolicyRequest, InStep;
    RefinesLater(o, clock, base, l);
    var all := first + later;
    if all == [] {
      RefinesLater(o, base, trip.at, l);
    } else {
      var horizon := if finite then all[|all| - 1].tick else 0;
      var (ready, openOk) := SendOpen(l, opening, PolicyRequest(cfg, horizon));
      OpenDelivered(o, base, l, opening, PolicyRequest(cfg, horizon));
      RefinesLater(o, opening.at, trip.at, ready);
      if openOk {
        FirstInStep(o, opening.at, base, cfg, h, ready, first, horizon, trip,
                    HostOpen(cfg, h, l, first, later, finite, opening, trip).0);
      }
    }
  }

  /** An acknowledged open leaves an empty plan under the policy sent. */
  lemma OpenDelivered(o: u32, clock: u32, l: Ledger, trip: Trip, p: HostPolicy)
    requires Refines(o, clock, l) && TripTimely(o, clock, l.exec.caps, trip)
    ensures var (after, ok) := SendOpen(l, trip, p);
            && Refines(o, trip.at, after) && after.exec.limits == l.exec.limits && after.exec.caps == l.exec.caps
            && (ok ==> JustOpened(after, p))
  {
    hide Refines, TimelyRun, DecodePolicy, ValidatePolicy, EncodeOpen;
    RefinesWhenSent(o, clock, l, trip);
    var encoded := EncodeOpen(p);
    if encoded.Some? {
      var policy := PolicySent(p);
      OpenWire(policy, encoded.value);
      Meanwhile(o, clock, l, trip);
      var mid := BookAll(l, trip.meanwhile);
      var event := OpenEvent(encoded.value, trip.at);
      BookRefines(o, EndClock(clock, trip.meanwhile), mid, event);
      OpenedTerms(mid.exec, encoded.value, trip.at);
    }
  }

  lemma PolicySent(p: HostPolicy) returns (policy: Policy)
    requires EncodeOpen(p).Some?
    ensures AsHostPolicy(policy) == p
  {
    policy := Policy(p.minimumStartSamples, p.armMask, p.minimumLeadMs, p.horizonEndTick, p.maximumLeadMs,
                     p.commandTimeoutMs, p.maximumApplyLatenessMs, ToVec(p.trackingErrorLimit), ToVec(p.maximumStep));
    assert ToVec(p.trackingErrorLimit) == p.trackingErrorLimit && ToVec(p.maximumStep) == p.maximumStep;
  }

  lemma OpenedTerms(e: Executor, payload: seq<u8>, now: u32)
    requires DecodePolicy(payload).Ok?
    ensures ExecOpen(e, payload, now).0.limits == e.limits && ExecOpen(e, payload, now).0.caps == e.caps
    ensures ExecOpen(e, payload, now).1 == Done ==>
              var policy := DecodePolicy(payload).value;
              && ExecOpen(e, payload, now).0.session
                 == CLOSED_SESSION.(open := true, policy := policy, horizonEndTick := policy.horizonEndTick)
  {
    hide DecodePolicy, ValidatePolicy;
  }
}
