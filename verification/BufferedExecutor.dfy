/** The older buffered executor: it primes, runs from setpoint to setpoint and
    ends in SUCCEEDED, HOLD, CANCELED or ABORTED, keeping lateness statistics. */
module BufferedExecutor {
  import opened Words
  import opened Interpolation
  import opened StreamSession
  import opened SetpointQueue

  const U32_MAX: u32 := 0xFFFF_FFFF
  const BUCKETS := 6

  type Histogram = h: seq<u32> | |h| == BUCKETS witness [0, 0, 0, 0, 0, 0]

  datatype State = Priming | Running | Hold | Succeeded | Canceled | Aborted

  datatype Reason =
    | NoReason | PlannedHold | OperatorCancel | QueueUnderflow | MissedApplyTick | ConnectionLoss | TrackingError

  datatype Result = Ok | Output | Terminal | BadState | NotPrimed | QueueRejected | InvalidAnchor

  datatype Diag = Diag(
    state: State, reason: Reason, lastQueueResult: QueueResult, queued: nat, peak: nat,
    accepted: u32, applied: u32, lastAppliedTick: u32, lastLateness: u32, maximumLateness: u32,
    maximumLatenessIndex: u32, histogram: Histogram, terminalTick: u32, inputComplete: bool, safeStopRequired: bool)

  datatype Exec = Exec(
    queue: seq<Sample>, anchor: Sample, diag: Diag, minimumStart: nat, allowedLateness: u32, anchorValid: bool)

  const FRESH := Diag(Priming, NoReason, QueueOk, 0, 0, 0, 0, 0, 0, 0, 0, [0, 0, 0, 0, 0, 0], 0, false, false)

  predicate Accepting(state: State) {
    state == Priming || state == Running
  }

  function Init(minimumStart: nat, allowedLateness: u32): Option<Exec> {
    if minimumStart == 0 || minimumStart > RING_SIZE then None
    else Some(Exec([], ZERO_SAMPLE, FRESH, minimumStart, allowedLateness, false))
  }

  /** Saturating addition, and increment, of a counter. */
  function Capped(counter: u32, more: nat): u32 {
    if more > U32_MAX - counter then U32_MAX else counter + more
  }

  function Depth(d: Diag, count: nat): Diag {
    d.(queued := count, peak := if count > d.peak then count else d.peak)
  }

  /** Every forced end clears the queue. */
  function Ended(e: Exec, state: State, reason: Reason, safeStop: bool, now: u32): Exec {
    e.(queue := [], diag := Depth(e.diag.(state := state, reason := reason, safeStopRequired := safeStop,
                                          terminalTick := now), 0))
  }

  function AdmitBatch(e: Exec, samples: seq<Sample>, lead: Lead, limits: JointLimits): (Exec, Result) {
    if !Accepting(e.diag.state) || e.diag.inputComplete then (e, BadState)
    else
      var verdict := PushVerdict(e.queue, samples, lead, limits);
      var queue := Pushed(e.queue, samples, lead, limits);
      var d := Depth(e.diag.(lastQueueResult := verdict), |queue|);
      if verdict != QueueOk then (e.(queue := queue, diag := d), QueueRejected)
      else (e.(queue := queue, diag := d.(accepted := Capped(d.accepted, |samples|))), Ok)
  }

  function MarkInputComplete(e: Exec): (Exec, Result) {
    if !Accepting(e.diag.state) then (e, BadState) else (e.(diag := e.diag.(inputComplete := true)), Ok)
  }

  function Start(e: Exec, tick: u32, pos: Pose, limits: JointLimits): (Exec, Result) {
    if e.diag.state != Priming then (e, BadState)
    else if e.queue == [] || (|e.queue| < e.minimumStart && !e.diag.inputComplete) then (e, NotPrimed)
    else if !TickAfter(e.queue[0].tick, tick) || !PoseOk(pos, limits) then (e, InvalidAnchor)
    else (e.(anchor := Sample(tick, pos), anchorValid := true, diag := e.diag.(state := Running)), Ok)
  }

  function Bucket(lateness: u32): (b: nat)
    ensures b < BUCKETS
  {
    if lateness >= BUCKETS then BUCKETS - 1 else lateness
  }

  /** The statistics of one applied sample. */
  function NoteApplied(d: Diag, now: u32, lateness: u32): Diag {
    var applied := Capped(d.applied, 1);
    var raised := lateness > d.maximumLateness;
    var b := Bucket(lateness);
    d.(lastAppliedTick := now, lastLateness := lateness, applied := applied,
       maximumLateness := if raised then lateness else d.maximumLateness,
       maximumLatenessIndex := if raised then applied else d.maximumLatenessIndex,
       histogram := d.histogram[b := Capped(d.histogram[b], 1)])
  }

  /** The sample at the front is due or late. */
  function StepApply(e: Exec, now: u32): (Exec, Result, Option<Pose>)
    requires e.queue != []
  {
    var next := e.queue[0];
    var lateness := Sub32(now, next.tick);
    if lateness > e.allowedLateness then (Ended(e, Hold, MissedApplyTick, true, now), Terminal, None)
    else
      var taken := DueResult(e.queue, next.tick);
      var noted := e.(diag := e.diag.(lastQueueResult := taken));
      if taken != QueueOk then (noted, QueueRejected, None)
      else
        var rest := e.queue[1..];
        var d := Depth(NoteApplied(noted.diag, now, lateness), |rest|);
        var applied := noted.(queue := rest, anchor := next, diag := d);
        if rest != [] then (applied, Output, Some(next.pos))
        else if d.inputComplete then
          (applied.(diag := d.(state := Succeeded, terminalTick := now)), Output, Some(next.pos))
        else (Ended(applied, Hold, QueueUnderflow, true, now), Output, Some(next.pos))
  }

  /** A joint between two samples, computed in 64 bits and cast back. */
  function Between(a: Pose, b: Pose, elapsed: u32, span: u32): Pose
    requires 0 < span && elapsed <= span
  {
    seq(LEFT_JOINTS, j requires 0 <= j < LEFT_JOINTS =>
      IdealLerpBetween(a[j], b[j], elapsed, span); WrapI32(IdealLerp(a[j], b[j], elapsed, span)))
  }

  function Step(e: Exec, now: u32): (Exec, Result, Option<Pose>) {
    if e.diag.state != Running || !e.anchorValid then (e, BadState, None)
    else if e.queue == [] then
      if e.diag.inputComplete then (Ended(e, Succeeded, NoReason, false, now), Terminal, None)
      else (Ended(e, Hold, QueueUnderflow, true, now), Terminal, None)
    else
      var next := e.queue[0];
      if now == next.tick || TickAfter(now, next.tick) then StepApply(e, now)
      else if now != e.anchor.tick && !TickAfter(now, e.anchor.tick) then (e, InvalidAnchor, None)
      else
        var span, elapsed := Sub32(next.tick, e.anchor.tick), Sub32(now, e.anchor.tick);
        if elapsed > span then (Ended(e, Hold, MissedApplyTick, true, now), Terminal, None)
        else (e, Output, Some(Between(e.anchor.pos, next.pos, elapsed, span)))
  }

  /** Planned hold, cancel, connection loss and tracking error. */
  datatype Interruption = Plan | Cancel | Loss | Tracking

  function Interrupt(e: Exec, what: Interruption, now: u32): (Exec, Result) {
    if !Accepting(e.diag.state) then (e, BadState)
    else
      match what
      case Plan => (Ended(e, Hold, PlannedHold, false, now), Terminal)
      case Cancel => (Ended(e, Canceled, OperatorCancel, true, now), Terminal)
      case Loss => (Ended(e, Aborted, ConnectionLoss, true, now), Terminal)
      case Tracking => (Ended(e, Aborted, TrackingError, true, now), Terminal)
  }
}
