/** The host's resident adapter: it validates routes, aligns them to the 5 ms
    grid, feeds long finite plans and synthesises splice points. The transport
    is an abstract MCU, an executor with its ledger, that receives a request
    at some tick and answers or does not. Values and functions here; the
    object that updates its fields in place is in `HostAdapterObject`. */
module HostAdapter {
  import opened Words
  import opened Interpolation
  import opened StreamContract
  import opened StreamSession
  import opened StreamExecutor
  import opened ExecutorRuns
  import opened PlanRefinement
  import opened WireCodec
  import opened HostHealth

  datatype Config = Config(
    minimumStartSamples: int, minimumLeadMs: int, maximumLeadMs: int, openTimeoutMs: int,
    finiteTimeoutMs: int, maximumApplyLatenessMs: int, trackingLimit: int, gripperTrackingLimit: int,
    maximumStep: int, settleTolerance: int, gripperSettleTolerance: int,
    maximumFeedbackAgeMs: int)

  /** A target relative to the tick at which the route is admitted. */
  datatype Point = Point(offset: int, pos: Vec)

  datatype AdapterState = New | Ready | Active | Stopped | Faulted

  /** The adapter's fields. The tail's tick and positions change together. */
  datatype Host = Host(
    state: AdapterState, armed: bool, owner: Option<string>, epoch: u32, prepared: Option<Vec>,
    tail: Option<Setpoint>, route: seq<Setpoint>, horizon: Option<u32>, pending: seq<Setpoint>)

  const NEW_HOST := Host(New, false, None, 0, None, None, [], None, [])

  /** Accepted; refused before anything was risked; or faulted. */
  datatype Answer = Accepted | Refused | Failed

  // ---- The transport ----

  /** One request: what the MCU does on its own before it, the tick at which it
      arrives, whether it arrives at all, and whether its answer comes back
      (and no later gate of the MCU refuses it). */
  datatype Trip = Trip(meanwhile: seq<Event>, at: u32, arrives: bool, answered: bool)

  function Deliver(l: Ledger, trip: Trip, event: Event): (Ledger, bool) {
    var mid := BookAll(l, trip.meanwhile);
    if !trip.arrives then (mid, false)
    else
      var after := Book(mid, event);
      (after, trip.answered && Handle(mid.exec, event).1 == Done && after.exec.session.policy.armMask == ARM_MASK_BOTH)
  }

  function SendBatch(l: Ledger, trip: Trip, b: HostBatch, kind: Kind): (r: (Ledger, bool))
    ensures r.1 ==> 1 <= |b.samples| <= WIRE_MAX_SAMPLES
  {
    match EncodeBatch(b, kind)
    case None => (l, false)
    case Some(payload) => Deliver(l, trip, AdmitEvent(payload, kind, trip.at))
  }

  function SendOpen(l: Ledger, trip: Trip, p: HostPolicy): (Ledger, bool) {
    match EncodeOpen(p)
    case None => (l, false)
    case Some(payload) => Deliver(l, trip, OpenEvent(payload, trip.at))
  }

  // ---- Ticks and epochs ----

  function HostTick(base: u32, offset: int): u32 {
    (base + offset) % TWO_32
  }

  /** The next epoch; zero is skipped. */
  function NextEpoch(epoch: u32): (r: u32)
    ensures r != 0 && r != epoch
  {
    if epoch + 1 == TWO_32 then 1 else epoch + 1
  }

  /** Owners are compared after trimming; the empty one may not claim. */
  function Claim(h: Host, owner: string): Option<Host> {
    if owner == "" then None
    else if h.owner.None? then Some(h.(owner := Some(owner), epoch := NextEpoch(h.epoch)))
    else if h.owner.value != owner then None
    else Some(h)
  }

  function Fault(h: Host): Host {
    h.(state := Faulted, armed := false)
  }

  // ---- Validation ----

  predicate StepFits(cfg: Config, from: Vec, to: Vec, span: int) {
    forall j :: 0 <= j < JOINT_COUNT ==> AbsDiff(to[j], from[j]) <= cfg.maximumStep * (span / CONTROL_TICK_MS)
  }

  function SpanBefore(points: seq<Point>, firstSpan: int, i: nat): int
    requires i < |points|
  {
    if i == 0 then firstSpan else points[i].offset - points[i - 1].offset
  }

  function PosBefore(points: seq<Point>, reference: Option<Vec>, i: nat): Option<Vec>
    requires i < |points|
  {
    if i == 0 then reference else Some(points[i - 1].pos)
  }

  predicate PointOk(cfg: Config, limits: Limits, points: seq<Point>, reference: Option<Vec>, firstSpan: int, i: nat)
    requires i < |points|
  {
    var span, from := SpanBefore(points, firstSpan, i), PosBefore(points, reference, i);
    && 0 < points[i].offset <= cfg.maximumLeadMs
    && 0 < span && span % CONTROL_TICK_MS == 0
    && WithinLimits(limits, points[i].pos)
    && (from.Some? ==> StepFits(cfg, from.value, points[i].pos, span))
  }

  predicate PointsOk(cfg: Config, limits: Limits, points: seq<Point>, reference: Option<Vec>, firstSpan: int) {
    && 1 <= |points| <= WIRE_MAX_SAMPLES
    && forall i :: 0 <= i < |points| ==> PointOk(cfg, limits, points, reference, firstSpan, i)
  }

  /** A finite plan: any length, offsets from zero in whole control ticks. */
  predicate FinitePointOk(cfg: Config, limits: Limits, points: seq<Point>, anchor: Vec, i: nat)
    requires i < |points|
  {
    var span := SpanBefore(points, points[0].offset, i);
    && 0 < span && points[i].offset % CONTROL_TICK_MS == 0
    && WithinLimits(limits, points[i].pos)
    && StepFits(cfg, PosBefore(points, Some(anchor), i).value, points[i].pos, span)
  }

  predicate FinitePlanOk(cfg: Config, limits: Limits, points: seq<Point>, anchor: Vec) {
    && cfg.minimumStartSamples <= |points|
    && 0 < |points| && cfg.minimumLeadMs <= points[0].offset
    && forall i :: 0 <= i < |points| ==> FinitePointOk(cfg, limits, points, anchor, i)
  }

  /** How many points of a finite plan lie inside the lead window. */
  function InsideLead(cfg: Config, points: seq<Point>): (n: nat)
    ensures n <= |points|
  {
    if points == [] then 0
    else
      var last := points[|points| - 1];
      InsideLead(cfg, points[..|points| - 1]) + if last.offset <= cfg.maximumLeadMs then 1 else 0
  }

  function InitialCount(cfg: Config, points: seq<Point>): (n: nat)
    ensures n <= |points| && n <= WIRE_MAX_SAMPLES
  {
    var inside := InsideLead(cfg, points);
    if inside <= WIRE_MAX_SAMPLES then inside else WIRE_MAX_SAMPLES
  }

  // ---- Routes ----

  /** Points placed on the clock. */
  function Placed(points: seq<Point>, base: u32, alignment: int): (r: seq<Setpoint>)
    ensures |r| == |points|
  {
    seq(|points|, i requires 0 <= i < |points| => Setpoint(HostTick(base, points[i].offset + alignment), points[i].pos))
  }

  /** The samples of a route that come after `base`. */
  function FutureRoute(route: seq<Setpoint>, base: u32): seq<Setpoint> {
    if route == [] then []
    else (if HostTickAfter(route[0].tick, base) then [route[0]] else []) + FutureRoute(route[1..], base)
  }

  /** The samples of a route that come before `tick`. */
  function RetainedRoute(route: seq<Setpoint>, tick: u32): seq<Setpoint> {
    if route == [] then []
    else (if HostTickAfter(tick, route[0].tick) then [route[0]] else []) + RetainedRoute(route[1..], tick)
  }

  function SampleAt(route: seq<Setpoint>, tick: u32, from: nat): Option<Vec>
    decreases |route| - from
  {
    if from >= |route| then None
    else if route[from].tick == tick then Some(route[from].pos)
    else SampleAt(route, tick, from + 1)
  }

  /** One joint between two neighbours, in Python's unbounded integers. */
  function JointBetween(a: i32, b: i32, elapsed: u32, span: u32): i32
    requires elapsed <= span && 0 < span
  {
    IdealLerpBetween(a, b, elapsed, span);
    IdealLerp(a, b, elapsed, span)
  }

  function HostBetween(left: Setpoint, right: Setpoint, tick: u32): Vec
    requires HostTickAfter(tick, left.tick) && HostTickAfter(right.tick, tick)
  {
    var span, elapsed := Distance(right.tick, left.tick), Distance(tick, left.tick);
    InsideSegment(left.tick, tick, right.tick);
    seq(JOINT_COUNT, j requires 0 <= j < JOINT_COUNT => JointBetween(left.pos[j], right.pos[j], elapsed, span))
  }

  /** Between two ticks in clock order the elapsed time is part of the span. */
  lemma InsideSegment(left: u32, tick: u32, right: u32)
    requires HostTickAfter(tick, left) && HostTickAfter(right, tick)
    ensures 0 < Distance(tick, left) < Distance(right, left)
  {
    DistanceIsSub(tick, left);
    DistanceIsSub(right, tick);
    DistanceIsSub(right, left);
  }

  function SegmentAt(route: seq<Setpoint>, tick: u32, from: nat): Option<Vec>
    decreases |route| - from
  {
    if from + 1 >= |route| then None
    else if HostTickAfter(tick, route[from].tick) && HostTickAfter(route[from + 1].tick, tick) then
      Some(HostBetween(route[from], route[from + 1], tick))
    else SegmentAt(route, tick, from + 1)
  }

  /** The host's interpolator: a sample at the tick anywhere, or the first
      segment around it. */
  function InterpolateRoute(route: seq<Setpoint>, tick: u32): Option<Vec> {
    var exact := SampleAt(route, tick, 0);
    if exact.Some? then exact else SegmentAt(route, tick, 0)
  }

  // ---- Requests ----

  function HorizonOf(h: Host): u32 {
    if h.horizon.Some? then h.horizon.value else 0
  }

  function AsHostSamples(samples: seq<Setpoint>): (r: seq<HostSample>)
    ensures |r| == |samples|
  {
    seq(|samples|, i requires 0 <= i < |samples| => HostSample(samples[i].tick, samples[i].pos))
  }

  function AppendRequest(horizon: u32, epoch: u32, samples: seq<Setpoint>): HostBatch {
    HostBatch(horizon, epoch, AsHostSamples(samples), ARM_MASK_BOTH, 0)
  }

  function SpliceRequest(epoch: u32, at: u32, samples: seq<Setpoint>): HostBatch {
    HostBatch(0, epoch, AsHostSamples(samples), ARM_MASK_BOTH, at)
  }

  function PolicyRequest(cfg: Config, horizon: u32): HostPolicy {
    HostPolicy(cfg.minimumStartSamples, cfg.minimumLeadMs, horizon, cfg.maximumLeadMs,
               if horizon == 0 then cfg.openTimeoutMs else cfg.finiteTimeoutMs, cfg.maximumApplyLatenessMs,
               seq(JOINT_COUNT, j requires 0 <= j < JOINT_COUNT =>
                 if j == 5 || j == 11 then cfg.gripperTrackingLimit else cfg.trackingLimit),
               seq(JOINT_COUNT, _ => cfg.maximumStep), ARM_MASK_BOTH)
  }

  // ---- Start ----

  /** Open a stream and admit its first samples; `later` is fed afterwards. */
  function HostOpen(cfg: Config, h: Host, l: Ledger, first: seq<Setpoint>, later: seq<Setpoint>, finite: bool,
                    opening: Trip, trip: Trip): (Host, Ledger, Answer)
  {
    var all := first + later;
    if all == [] then (Fault(h), l, Failed)
    else
      var horizon := if finite then all[|all| - 1].tick else 0;
      var (ready, openOk) := SendOpen(l, opening, PolicyRequest(cfg, horizon));
      if !openOk then (Fault(h), ready, Failed)
      else
        var (after, ok) := SendBatch(ready, trip, AppendRequest(horizon, h.epoch, first), Append);
        if !ok then (Fault(h), after, Failed)
        else
          (h.(state := Active, tail := Some(first[|first| - 1]), route := first,
              horizon := if finite then Some(horizon) else None, pending := later), after, Accepted)
  }

  /** The checks on a first route; the result is how many points are sent at once. */
  function FirstRoute(cfg: Config, limits: Limits, points: seq<Point>, finite: bool, anchor: Vec): (r: Option<nat>)
    ensures r.Some? ==> r.value <= |points|
  {
    if finite then
      if !FinitePlanOk(cfg, limits, points, anchor) then None
      else if InitialCount(cfg, points) < cfg.minimumStartSamples then None
      else Some(InitialCount(cfg, points))
    else if |points| < cfg.minimumStartSamples || |points| == 0 || points[0].offset < cfg.minimumLeadMs then None
    else if !PointsOk(cfg, limits, points, Some(anchor), points[0].offset) then None
    else Some(|points|)
  }

  /** The second half of `start`: claim, arm and enable, then open. */
  function HostLaunch(cfg: Config, h: Host, l: Ledger, owner: string, points: seq<Point>, count: nat, finite: bool,
                      enabled: bool, beat: Option<u32>, opening: Trip, trip: Trip): (Host, Ledger, Answer)
    requires count <= |points|
  {
    var claimed := Claim(h, owner);
    if claimed.None? then (h, l, Refused)
    else
      var armed := claimed.value.(armed := true,
          epoch := if h.owner.Some? then NextEpoch(h.epoch) else claimed.value.epoch);
      if (!h.armed && !enabled) || beat.None? then (Fault(armed), l, Failed)
      else
        HostOpen(cfg, armed, l, Placed(points[..count], beat.value, 0), Placed(points[count..], beat.value, 0),
                 finite, opening, trip)
  }

  /** `start`. Before the first arming the torque-off pose is read again:
      `anchor` is that reading, or nothing if it failed. */
  function HostStart(cfg: Config, limits: Limits, authorized: bool, h: Host, l: Ledger, owner: string,
                     points: seq<Point>, finite: bool, anchor: Option<Vec>, enabled: bool, beat: Option<u32>,
                     opening: Trip, trip: Trip): (Host, Ledger, Answer)
  {
    if !authorized || h.state != Ready || h.prepared.None? then (h, l, Refused)
    else if !h.armed && h.owner.Some? then (h, l, Refused)
    else if !h.armed && anchor.None? then (Fault(h), l, Failed)
    else
      var h1 := if h.armed then h else h.(prepared := anchor);
      var count := FirstRoute(cfg, limits, points, finite, h1.prepared.value);
      if count.None? then (h1, l, Refused)
      else HostLaunch(cfg, h1, l, owner, points, count.value, finite, enabled, beat, opening, trip)
  }

  // ---- Append ----

  /** The shift that puts a first tick on the tail's grid. */
  function AppendShift(first: u32, tail: u32): (s: int)
    ensures 0 <= s < CONTROL_TICK_MS
  {
    (-(Distance(first, tail) as int)) % CONTROL_TICK_MS
  }

  function HostAppendAt(cfg: Config, limits: Limits, h: Host, l: Ledger, points: seq<Point>, base: u32, trip: Trip)
    : (Host, Ledger, Answer)
    requires h.tail.Some?
  {
    if points == [] then (Fault(h), l, Failed)
    else
      var first, tail := HostTick(base, points[0].offset), h.tail.value;
      var shift := AppendShift(first, tail.tick);
      if !HostTickAfter(first, tail.tick) then (Fault(h), l, Failed)
      else if points[|points| - 1].offset + shift > cfg.maximumLeadMs then (Fault(h), l, Failed)
      else if !PointsOk(cfg, limits, points, Some(tail.pos), Distance(first, tail.tick) + shift) then (Fault(h), l,
          Failed)
      else
        var samples := Placed(points, base, shift);
        var (after, ok) := SendBatch(l, trip, AppendRequest(HorizonOf(h), h.epoch, samples), Append);
        if !ok then (Fault(h), after, Failed)
        else
          (h.(route := FutureRoute(h.route, base) + samples, tail := Some(samples[|samples| - 1])), after, Accepted)
  }

  /** `append`. */
  function HostAppend(cfg: Config, limits: Limits, h: Host, l: Ledger, owner: string, points: seq<Point>,
                      beat: Option<u32>, trip: Trip): (Host, Ledger, Answer)
  {
    var claimed := Claim(h, owner);
    if claimed.None? then (h, l, Refused)
    else if h.state != Active || h.tail.None? then (claimed.value, l, Refused)
    else if beat.None? then (Fault(claimed.value), l, Failed)
    else HostAppendAt(cfg, limits, claimed.value, l, points, beat.value, trip)
  }

  // ---- Splice ----

  /** The shift that puts a splice tick on the tail's grid. */
  function SpliceShift(raw: u32, tail: u32): (s: int)
    ensures 0 <= s < CONTROL_TICK_MS
  {
    Distance(tail, raw) % CONTROL_TICK_MS
  }

  function HostSpliceAt(cfg: Config, limits: Limits, h: Host, l: Ledger, points: seq<Point>, spliceOffset: int,
                        base: u32, trip: Trip): (Host, Ledger, Answer)
    requires h.tail.Some? && |points| > 0
  {
    var tail := h.tail.value;
    var shift := SpliceShift(HostTick(base, spliceOffset), tail.tick);
    var at := HostTick(base, spliceOffset + shift);
    var future := FutureRoute(h.route, base);
    if points[|points| - 1].offset + shift > cfg.maximumLeadMs then (Fault(h), l, Failed)
    else if HostTickAfter(at, tail.tick) then (Fault(h), l, Failed)
    else
      var continuity := InterpolateRoute(future, at);
      if continuity.None? then (Fault(h), l, Failed)
      else if !PointsOk(cfg, limits, points, continuity, points[0].offset - spliceOffset) then (Fault(h), l, Failed)
      else
        var h' := h.(epoch := NextEpoch(h.epoch));
        var samples := [Setpoint(at, continuity.value)] + Placed(points, base, shift);
        var (after, ok) := SendBatch(l, trip, SpliceRequest(h'.epoch, at, samples), Splice);
        if !ok then (Fault(h'), after, Failed)
        else
          (h'.(route := RetainedRoute(future, at) + samples, tail := Some(samples[|samples| - 1])), after, Accepted)
  }

  /** The checks on a splice that come before the MCU is asked anything. */
  predicate SpliceArgumentsOk(cfg: Config, limits: Limits, points: seq<Point>, spliceOffset: int) {
    && spliceOffset % CONTROL_TICK_MS == 0
    && cfg.minimumLeadMs <= spliceOffset
    && 1 <= |points| <= WIRE_MAX_SAMPLES - 1
    && spliceOffset < points[0].offset
    && PointsOk(cfg, limits, points, None, points[0].offset - spliceOffset)
  }

  /** `splice`. */
  function HostSplice(cfg: Config, limits: Limits, h: Host, l: Ledger, owner: string, points: seq<Point>,
                      spliceOffset: int, beat: Option<u32>, trip: Trip): (Host, Ledger, Answer)
  {
    var claimed := Claim(h, owner);
    if claimed.None? then (h, l, Refused)
    else if h.state != Active || h.tail.None? then (claimed.value, l, Refused)
    else if !SpliceArgumentsOk(cfg, limits, points, spliceOffset) then (claimed.value, l, Refused)
    else if beat.None? then (Fault(claimed.value), l, Failed)
    else HostSpliceAt(cfg, limits, claimed.value, l, points, spliceOffset, beat.value, trip)
  }

  // ---- The finite plan feeder ----

  /** How many pending samples may go now: inside the lead window and no more
      than `limit`. */
  function ReadyCount(cfg: Config, pending: seq<Setpoint>, base: u32, limit: int, from: nat): (n: nat)
    requires from <= |pending|
    ensures from <= n <= |pending|
    ensures from <= limit ==> n <= limit
    ensures limit <= from ==> n == from
    ensures forall i :: from <= i < n ==> Distance(pending[i].tick, base) <= cfg.maximumLeadMs
    decreases |pending| - from
  {
    if from == |pending| || Distance(pending[from].tick, base) > cfg.maximumLeadMs || from >= limit then from
    else ReadyCount(cfg, pending, base, limit, from + 1)
  }

  function CountLimit(queued: nat): int {
    if WIRE_MAX_SAMPLES <= QUEUE_CAPACITY - queued then WIRE_MAX_SAMPLES else QUEUE_CAPACITY - queued
  }

  /** `_pump_finite_plan`: keep the plan ahead of the MCU's cursor. */
  function HostPump(cfg: Config, h: Host, l: Ledger, beat: Option<u32>, trip: Trip): (Host, Ledger, Answer) {
    if h.pending == [] then (h, l, Accepted)
    else if h.horizon.None? || h.tail.None? || beat.None? then (Fault(h), l, Failed)
    else
      var base := beat.value;
      var future := FutureRoute(h.route, base);
      var first := h.pending[0].tick;
      if !HostTickAfter(first, base) || Distance(first, base) < cfg.minimumLeadMs then (Fault(h), l, Failed)
      else
        var n := ReadyCount(cfg, h.pending, base, CountLimit(|future|), 0);
        if n == 0 then (h, l, Accepted)
        else
          var ready := h.pending[..n];
          var (after, ok) := SendBatch(l, trip, AppendRequest(HorizonOf(h), h.epoch, ready), Append);
          if !ok then (Fault(h), after, Failed)
          else
            (h.(route := future + ready, tail := Some(ready[n - 1]), pending := h.pending[n..]), after, Accepted)
  }

  predicate Settled(cfg: Config, measured: Vec, target: Vec) {
    forall j :: 0 <= j < JOINT_COUNT ==>
      AbsDiff(measured[j], target[j]) <= (if j == 5 || j == 11 then cfg.gripperSettleTolerance else cfg.settleTolerance)
  }

  /** `poll` after the feeder: stop on any inconsistency, and release the
      session once a finite plan has settled. */
  function HostCheck(cfg: Config, h: Host, e: Executor, replies: PollReplies): (Host, Answer) {
    if !AllWell(replies, e.diag.state == Succeeded) || e.diag.state == Aborted || e.diag.state == Hold
       || e.diag.safeStopRequired then (Fault(h), Failed)
    else if e.diag.state != Succeeded || Busy(replies) then (h, Accepted)
    else
      var measured := MeasuredPose(replies, cfg.maximumFeedbackAgeMs);
      if h.prepared.None? || h.tail.None? || measured.None? || !Settled(cfg, measured.value, h.tail.value.pos) then
        (Fault(h), Failed)
      else
        (h.(prepared := measured, tail := None, route := [], horizon := None, pending := [], state := Ready), Accepted)
  }

  /** `poll`. */
  function HostPoll(cfg: Config, h: Host, l: Ledger, owner: string, beat: Option<u32>, trip: Trip, replies: PollReplies)
    : (Host, Ledger, Answer)
  {
    var claimed := Claim(h, owner);
    if claimed.None? then (h, l, Refused)
    else if h.state != Active then (claimed.value, l, Refused)
    else
      var (pumped, after, answer) := HostPump(cfg, claimed.value, l, beat, trip);
      if answer != Accepted then (pumped, after, answer)
      else
        var (checked, verdict) := HostCheck(cfg, pumped, after.exec, replies);
        (checked, after, verdict)
  }

  /** `prepare`: single use; `anchor` is the captured pose, if all checks held. */
  function HostPrepare(h: Host, anchor: Option<Vec>): (Host, Answer) {
    if h.state != New then (h, Refused)
    else if anchor.None? then (Fault(h), Failed)
    else (h.(prepared := anchor, state := Ready), Accepted)
  }

  /** `stop`: `latched` says whether the MCU confirmed the stop. */
  function HostStop(h: Host, owner: string, latched: bool): (Host, Answer) {
    var claimed := Claim(h, owner);
    if claimed.None? then (h, Refused)
    else if h.state == Stopped then (claimed.value, Accepted)
    else if !latched then (Fault(claimed.value), Failed)
    else (claimed.value.(armed := false, route := [], horizon := None, pending := [], state := Stopped), Accepted)
  }
}
