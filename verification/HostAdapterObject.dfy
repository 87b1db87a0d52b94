/** The resident adapter as the host keeps it: fields that `start`, `append`,
    `splice`, `poll` and `stop` update in place, beside the link to the MCU.
    Every operation is tied to its function in `HostAdapter`. */
module HostAdapterObject {
  import opened Words
  import opened StreamContract
  import opened StreamSession
  import opened StreamExecutor
  import opened ExecutorRuns
  import opened PlanRefinement
  import opened WireCodec
  import opened HostHealth
  import opened HostAdapter

  // ---- Loops over points and samples ----

  method StepFitsLoop(cfg: Config, from: Vec, to: Vec, span: int) returns (ok: bool)
    ensures ok == StepFits(cfg, from, to, span)
  {
    var allowed := cfg.maximumStep * (span / CONTROL_TICK_MS);
    for j := 0 to JOINT_COUNT
      invariant forall k :: 0 <= k < j ==> AbsDiff(to[k], from[k]) <= allowed
    {
      if AbsDiff(to[j], from[j]) > allowed { return false; }
    }
    ok := true;
  }

  /** `_validate_points`: point after point, against the one before it. */
  method ValidatePoints(cfg: Config, limits: Limits, points: seq<Point>, reference: Option<Vec>, firstSpan: int)
    returns (ok: bool)
    ensures ok == PointsOk(cfg, limits, points, reference, firstSpan)
  {
    hide StepFits, WithinLimits;
    if !(1 <= |points| <= WIRE_MAX_SAMPLES) { return false; }
    var previousOffset, previousPos, span := 0, reference, firstSpan;
    for i := 0 to |points|
      invariant forall k :: 0 <= k < i ==> PointOk(cfg, limits, points, reference, firstSpan, k)
      invariant previousPos == if i == 0 then reference else Some(points[i - 1].pos)
      invariant 0 < i ==> previousOffset == points[i - 1].offset
      invariant i == 0 ==> span == firstSpan
    {
      var point := points[i];
      if 0 < i { span := point.offset - previousOffset; }
      var fits := true;
      if previousPos.Some? { fits := StepFitsLoop(cfg, previousPos.value, point.pos, span); }
      if !(0 < point.offset <= cfg.maximumLeadMs) || span <= 0 || span % CONTROL_TICK_MS != 0
         || !WithinLimits(limits, point.pos) || !fits {
        assert !PointOk(cfg, limits, points, reference, firstSpan, i);
        return false;
      }
      assert PointOk(cfg, limits, points, reference, firstSpan, i);
      previousOffset, previousPos := point.offset, Some(point.pos);
    }
    ok := true;
  }

  /** `_validate_finite_plan_points`: the same walk, from offset zero. */
  method ValidateFinitePlan(cfg: Config, limits: Limits, points: seq<Point>, anchor: Vec) returns (ok: bool)
    ensures ok == FinitePlanOk(cfg, limits, points, anchor)
  {
    hide StepFits, WithinLimits;
    if |points| < cfg.minimumStartSamples || |points| == 0 || points[0].offset < cfg.minimumLeadMs { return false; }
    var previousOffset, previousPos := 0, anchor;
    for i := 0 to |points|
      invariant forall k :: 0 <= k < i ==> FinitePointOk(cfg, limits, points, anchor, k)
      invariant previousPos == if i == 0 then anchor else points[i - 1].pos
      invariant previousOffset == if i == 0 then 0 else points[i - 1].offset
    {
      var point := points[i];
      var fits := StepFitsLoop(cfg, previousPos, point.pos, point.offset - previousOffset);
      if point.offset <= previousOffset || point.offset % CONTROL_TICK_MS != 0
         || !WithinLimits(limits, point.pos) || !fits {
        assert !FinitePointOk(cfg, limits, points, anchor, i);
        return false;
      }
      assert FinitePointOk(cfg, limits, points, anchor, i);
      previousOffset, previousPos := point.offset, point.pos;
    }
    ok := true;
  }

  /** `_interpolate_route`: first a sample at the tick, then a segment around it. */
  method InterpolateRouteLoop(route: seq<Setpoint>, tick: u32) returns (r: Option<Vec>)
    ensures r == InterpolateRoute(route, tick)
  {
    hide HostTickAfter, HostBetween;
    for i := 0 to |route|
      invariant SampleAt(route, tick, 0) == SampleAt(route, tick, i)
    {
      if route[i].tick == tick { return Some(route[i].pos); }
    }
    var i := 0;
    while i + 1 < |route|
      invariant SegmentAt(route, tick, 0) == SegmentAt(route, tick, i)
    {
      if HostTickAfter(tick, route[i].tick) && HostTickAfter(route[i + 1].tick, tick) {
        return Some(HostBetween(route[i], route[i + 1], tick));
      }
      i := i + 1;
    }
    r := None;
  }

  /** The feeder's selection loop. */
  method SelectReady(cfg: Config, pending: seq<Setpoint>, base: u32, limit: int) returns (ready: seq<Setpoint>)
    ensures ready == pending[..ReadyCount(cfg, pending, base, limit, 0)]
  {
    ready := [];
    var i := 0;
    while i < |pending|
      invariant i <= |pending| && ready == pending[..i]
      invariant ReadyCount(cfg, pending, base, limit, 0) == ReadyCount(cfg, pending, base, limit, i)
    {
      if Distance(pending[i].tick, base) > cfg.maximumLeadMs || |ready| >= limit { break; }
      ready := ready + [pending[i]];
      i := i + 1;
    }
  }

  /** The settle check, joint by joint: no joint is further off than its
      tolerance. */
  method SettledLoop(cfg: Config, measured: Vec, target: Vec) returns (ok: bool)
    ensures ok == Settled(cfg, measured, target)
  {
    for j := 0 to JOINT_COUNT
      invariant forall i :: 0 <= i < j ==>
                  AbsDiff(measured[i], target[i])
                  <= (if i == 5 || i == 11 then cfg.gripperSettleTolerance else cfg.settleTolerance)
    {
      var tolerance := if j == 5 || j == 11 then cfg.gripperSettleTolerance else cfg.settleTolerance;
      if AbsDiff(measured[j], target[j]) > tolerance { return false; }
    }
    ok := true;
  }

  // ---- The link ----

  /** The transport: one MCU at the other end, one request at a time. */
  class McuLink {
    var ledger: Ledger

    constructor (ledger: Ledger)
      ensures this.ledger == ledger
    {
      this.ledger := ledger;
    }

    method Exchange(trip: Trip, event: Event) returns (ok: bool)
      modifies this
      ensures (ledger, ok) == Deliver(old(ledger), trip, event)
    {
      ledger := BookAll(ledger, trip.meanwhile);
      if !trip.arrives { return false; }
      var done := Handle(ledger.exec, event).1 == Done;
      ledger := Book(ledger, event);
      ok := trip.answered && done && ledger.exec.session.policy.armMask == ARM_MASK_BOTH;
    }

    method OpenStream(trip: Trip, p: HostPolicy) returns (ok: bool)
      modifies this
      ensures (ledger, ok) == SendOpen(old(ledger), trip, p)
    {
      hide Deliver;
      var encoded := EncodeOpen(p);
      if encoded.None? { return false; }
      ok := Exchange(trip, OpenEvent(encoded.value, trip.at));
    }

    method Batch(trip: Trip, b: HostBatch, kind: Kind) returns (ok: bool)
      modifies this
      ensures (ledger, ok) == SendBatch(old(ledger), trip, b, kind)
      ensures ok ==> 1 <= |b.samples|
    {
      hide Deliver, EncodeBatch;
      var encoded := EncodeBatchLoop(b, kind);
      if encoded.None? { return false; }
      ok := Exchange(trip, AdmitEvent(encoded.value, kind, trip.at));
    }
  }

  // ---- The adapter ----

  class Adapter {
    const cfg: Config
    const limits: Limits
    const authorized: bool
    const link: McuLink
    var state: AdapterState
    var armed: bool
    var owner: Option<string>
    var epoch: u32
    var prepared: Option<Vec>
    var tail: Option<Setpoint>
    var route: seq<Setpoint>
    var horizon: Option<u32>
    var pending: seq<Setpoint>

    function Value(): Host
      reads this
    {
      Host(state, armed, owner, epoch, prepared, tail, route, horizon, pending)
    }

    constructor (cfg: Config, limits: Limits, authorized: bool, link: McuLink)
      ensures this.cfg == cfg && this.limits == limits && this.authorized == authorized && this.link == link
      ensures Value() == NEW_HOST
    {
      this.cfg, this.limits, this.authorized, this.link := cfg, limits, authorized, link;
      state, armed, owner, epoch, prepared, tail, route, horizon, pending := New, false, None, 0, None, None, [],
          None, [];
    }

    method Stumble() returns (answer: Answer)
      modifies this`state, this`armed
      ensures Value() == Fault(old(Value())) && answer == Failed
    {
      state, armed := Faulted, false;
      answer := Failed;
    }

    /** `_claim`. */
    method ClaimFor(name: string) returns (ok: bool)
      modifies this`owner, this`epoch
      ensures Claim(old(Value()), name) == if ok then Some(Value()) else None
      ensures !ok ==> Value() == old(Value())
    {
      if name == "" { return false; }
      if owner.None? {
        owner, epoch := Some(name), NextEpoch(epoch);
      } else if owner.value != name {
        return false;
      }
      ok := true;
    }

    /** `prepare`: single use; identity, health, idle services, then the pose. */
    method Prepare(replies: Preflight) returns (answer: Answer)
      modifies this
      ensures (Value(), answer) == HostPrepare(old(Value()), PreparedAnchor(limits, replies))
    {
      if state != New { return Refused; }
      if !IdentityOk(replies.hello) || !Healthy(replies.state) || !DispatchReady(replies.dispatch)
         || !TrackingIdle(replies.tracking) {
        answer := Stumble();
        return;
      }
      var anchor := AnchorLoop(limits, replies.shadow);
      if anchor.None? { answer := Stumble(); return; }
      prepared, state := anchor, Ready;
      answer := Accepted;
    }

    /** `append`. */
    method Append(name: string, points: seq<Point>, beat: Option<u32>, trip: Trip) returns (answer: Answer)
      modifies this, link
      ensures (Value(), link.ledger, answer)
           == HostAppend(cfg, limits, old(Value()), old(link.ledger), name, points, beat, trip)
    {
      hide SendBatch, PointsOk, FutureRoute, HostTickAfter, HostTick, Distance;
      var active := state == Active && tail.Some?;
      var claimed := ClaimFor(name);
      if !claimed || !active { return Refused; }
      if beat.None? { answer := Stumble(); return; }
      answer := AppendAt(points, beat.value, trip);
    }

    method AppendAt(points: seq<Point>, base: u32, trip: Trip) returns (answer: Answer)
      requires tail.Some?
      modifies this, link
      ensures (Value(), link.ledger, answer)
           == HostAppendAt(cfg, limits, old(Value()), old(link.ledger), points, base, trip)
    {
      hide SendBatch, PointsOk, FutureRoute, HostTickAfter, HostTick, Distance;
      if points == [] { answer := Stumble(); return; }
      var future := FutureRoute(route, base);
      var first := HostTick(base, points[0].offset);
      if !HostTickAfter(first, tail.value.tick) { answer := Stumble(); return; }
      var gap := Distance(first, tail.value.tick) as int;
      var alignment := (-gap) % CONTROL_TICK_MS;
      if points[|points| - 1].offset + alignment > cfg.maximumLeadMs { answer := Stumble(); return; }
      var valid := ValidatePoints(cfg, limits, points, Some(tail.value.pos), gap + alignment);
      if !valid { answer := Stumble(); return; }
      var samples := Placed(points, base, alignment);
      var ok := link.Batch(trip, AppendRequest(HorizonOf(Value()), epoch, samples), Kind.Append);
      if !ok { answer := Stumble(); return; }
      route, tail := future + samples, Some(samples[|samples| - 1]);
      answer := Accepted;
    }

    /** `splice`. */
    method Splice(name: string, points: seq<Point>, spliceOffset: int, beat: Option<u32>,
                  trip: Trip) returns (answer: Answer)
      modifies this, link
      ensures (Value(), link.ledger, answer)
           == HostSplice(cfg, limits, old(Value()), old(link.ledger), name, points, spliceOffset, beat, trip)
    {
      hide SendBatch, PointsOk, FutureRoute, HostTickAfter, HostTick, Distance, HostSpliceAt;
      var active := state == Active && tail.Some?;
      var claimed := ClaimFor(name);
      if !claimed || !active { return Refused; }
      if spliceOffset % CONTROL_TICK_MS != 0 || spliceOffset < cfg.minimumLeadMs
         || !(1 <= |points| <= WIRE_MAX_SAMPLES - 1) || points[0].offset <= spliceOffset {
        return Refused;
      }
      var valid := ValidatePoints(cfg, limits, points, None, points[0].offset - spliceOffset);
      if !valid { return Refused; }
      if beat.None? { answer := Stumble(); return; }
      answer := SpliceAt(points, spliceOffset, beat.value, trip);
    }

    method SpliceAt(points: seq<Point>, spliceOffset: int, base: u32, trip: Trip) returns (answer: Answer)
      requires tail.Some? && |points| > 0
      modifies this, link
      ensures (Value(), link.ledger, answer)
           == HostSpliceAt(cfg, limits, old(Value()), old(link.ledger), points, spliceOffset, base, trip)
    {
      hide SendBatch, PointsOk, FutureRoute, RetainedRoute, HostTickAfter, HostTick, Distance, InterpolateRoute;
      var future := FutureRoute(route, base);
      var alignment := SpliceShift(HostTick(base, spliceOffset), tail.value.tick);
      if points[|points| - 1].offset + alignment > cfg.maximumLeadMs { answer := Stumble(); return; }
      var at := HostTick(base, spliceOffset + alignment);
      if HostTickAfter(at, tail.value.tick) { answer := Stumble(); return; }
      var continuity := InterpolateRouteLoop(future, at);
      if continuity.None? { answer := Stumble(); return; }
      var valid := ValidatePoints(cfg, limits, points, continuity, points[0].offset - spliceOffset);
      if !valid { answer := Stumble(); return; }
      epoch := NextEpoch(epoch);
      var samples := [Setpoint(at, continuity.value)] + Placed(points, base, alignment);
      var ok := link.Batch(trip, SpliceRequest(epoch, at, samples), Kind.Splice);
      if !ok { answer := Stumble(); return; }
      route, tail := RetainedRoute(future, at) + samples, Some(samples[|samples| - 1]);
      answer := Accepted;
    }

    /** `_pump_finite_plan`. */
    method Pump(beat: Option<u32>, trip: Trip) returns (answer: Answer)
      modifies this, link
      ensures (Value(), link.ledger, answer) == HostPump(cfg, old(Value()), old(link.ledger), beat, trip)
    {
      hide SendBatch, FutureRoute, HostTickAfter, Distance;
      if pending == [] { return Accepted; }
      if horizon.None? || tail.None? || beat.None? { answer := Stumble(); return; }
      var base := beat.value;
      var future := FutureRoute(route, base);
      var first := pending[0].tick;
      if !HostTickAfter(first, base) || Distance(first, base) < cfg.minimumLeadMs { answer := Stumble(); return; }
      var ready := SelectReady(cfg, pending, base, CountLimit(|future|));
      if ready == [] { return Accepted; }
      var ok := link.Batch(trip, AppendRequest(HorizonOf(Value()), epoch, ready), Kind.Append);
      if !ok { answer := Stumble(); return; }
      route, tail := future + ready, Some(ready[|ready| - 1]);
      pending := pending[|ready|..];
      answer := Accepted;
    }

    /** `poll`. */
    method Poll(name: string, beat: Option<u32>, trip: Trip, replies: PollReplies) returns (answer: Answer)
      modifies this, link
      ensures (Value(), link.ledger, answer) == HostPoll(cfg, old(Value()), old(link.ledger), name, beat, trip, replies)
    {
      hide HostPump;
      var active := state == Active;
      var claimed := ClaimFor(name);
      if !claimed || !active { return Refused; }
      answer := Pump(beat, trip);
      if answer != Accepted { return; }
      answer := Check(replies);
    }

    /** The safety checks of a poll. */
    method Check(replies: PollReplies) returns (answer: Answer)
      modifies this
      ensures (Value(), answer) == HostCheck(cfg, old(Value()), link.ledger.exec, replies)
    {
      hide Settled, MeasuredPose, Healthy;
      var d := link.ledger.exec.diag;
      var well := AskAll(replies, d.state == Succeeded);
      if !well || d.state == Aborted || d.state == Hold || d.safeStopRequired { answer := Stumble(); return; }
      if d.state != Succeeded || Busy(replies) { return Accepted; }
      if prepared.None? || tail.None? { answer := Stumble(); return; }
      var measured := FreshPose(replies, cfg.maximumFeedbackAgeMs);
      if measured.None? { answer := Stumble(); return; }
      var settled := SettledLoop(cfg, measured.value, tail.value.pos);
      if !settled { answer := Stumble(); return; }
      prepared, tail, route, horizon, pending, state := measured, None, [], None, [], Ready;
      answer := Accepted;
    }

    /** `stop`. */
    method Stop(name: string, reply: Option<StateReply>) returns (answer: Answer)
      modifies this
      ensures (Value(), answer) == HostStop(old(Value()), name, reply.Some? && reply.value.stopLatched)
    {
      var claimed := ClaimFor(name);
      if !claimed { return Refused; }
      if state == Stopped { return Accepted; }
      if reply.None? || !reply.value.stopLatched { answer := Stumble(); return; }
      armed, route, horizon, pending, state := false, [], None, [], Stopped;
      answer := Accepted;
    }

    /** The checks of `start` on its points. */
    method CheckFirstRoute(points: seq<Point>, finite: bool, anchor: Vec) returns (r: Option<nat>)
      ensures r == FirstRoute(cfg, limits, points, finite, anchor)
    {
      hide PointsOk, FinitePlanOk;
      if finite {
        var valid := ValidateFinitePlan(cfg, limits, points, anchor);
        if !valid || InitialCount(cfg, points) < cfg.minimumStartSamples { return None; }
        return Some(InitialCount(cfg, points));
      }
      if |points| < cfg.minimumStartSamples || |points| == 0 || points[0].offset < cfg.minimumLeadMs { return None; }
      var valid := ValidatePoints(cfg, limits, points, Some(anchor), points[0].offset);
      r := if valid then Some(|points|) else None;
    }

    /** `start`. */
    method Start(name: string, points: seq<Point>, finite: bool, replies: Launching, opening: Trip,
                 trip: Trip) returns (answer: Answer)
      modifies this, link
      ensures (Value(), link.ledger, answer)
           == HostStart(cfg, limits, authorized, old(Value()), old(link.ledger), name, points, finite,
                        RefreshedAnchor(limits, replies), TorqueOn(replies), BeatOf(replies.beat), opening, trip)
    {
      hide FirstRoute, HostLaunch, AnchorOf;
      if !authorized || state != Ready || prepared.None? { return Refused; }
      if !armed {
        if owner.Some? { return Refused; }
        if !Healthy(replies.refresh) { answer := Stumble(); return; }
        var anchor := AnchorLoop(limits, replies.shadow);
        if anchor.None? { answer := Stumble(); return; }
        prepared := anchor;
      }
      var count := CheckFirstRoute(points, finite, prepared.value);
      if count.None? { return Refused; }
      answer := Launch(name, points, count.value, finite, replies, opening, trip);
    }

    /** Claim, arm and enable at first use, then open. */
    method Launch(name: string, points: seq<Point>, count: nat, finite: bool, replies: Launching, opening: Trip,
                  trip: Trip) returns (answer: Answer)
      requires count <= |points|
      modifies this, link
      ensures (Value(), link.ledger, answer)
           == HostLaunch(cfg, old(Value()), old(link.ledger), name, points, count, finite, TorqueOn(replies),
                         BeatOf(replies.beat), opening, trip)
    {
      hide HostOpen, Placed;
      var wasArmed, alreadyOwned := armed, owner.Some?;
      var claimed := ClaimFor(name);
      if !claimed { return Refused; }
      if alreadyOwned { epoch := NextEpoch(epoch); }
      armed := true;
      if !wasArmed {
        if !replies.armed || !Healthy(replies.postArm) { answer := Stumble(); return; }
        if !Healthy(replies.enabled) { answer := Stumble(); return; }
      }
      if !Healthy(replies.beat) { answer := Stumble(); return; }
      var base := replies.beat.value.lastHeartbeatMs;
      answer := Open(Placed(points[..count], base, 0), Placed(points[count..], base, 0), finite, opening, trip);
    }

    method Open(first: seq<Setpoint>, later: seq<Setpoint>, finite: bool, opening: Trip,
                trip: Trip) returns (answer: Answer)
      modifies this, link
      ensures (Value(), link.ledger, answer)
           == HostOpen(cfg, old(Value()), old(link.ledger), first, later, finite, opening, trip)
    {
      hide SendBatch, SendOpen, PolicyRequest;
      var all := first + later;
      if all == [] { answer := Stumble(); return; }
      var end: u32 := if finite then all[|all| - 1].tick else 0;
      var openOk := link.OpenStream(opening, PolicyRequest(cfg, end));
      if !openOk { answer := Stumble(); return; }
      var ok := link.Batch(trip, AppendRequest(end, epoch, first), Kind.Append);
      if !ok { answer := Stumble(); return; }
      state, tail, route := Active, Some(first[|first| - 1]), first;
      horizon, pending := if finite then Some(end) else None, later;
      answer := Accepted;
    }
  }
}
