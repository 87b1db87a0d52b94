/** The resident executor: it anchors a primed session, follows the queue on a
    5 ms control grid and ends SUCCEEDED, in HOLD or ABORTED. Values and
    functions first; the object that updates its fields in place is
    `ExecutorObject` in `StreamExecutorObject`. */
module StreamExecutor {
  import opened Words
  import opened StreamContract
  import opened StreamSession

  datatype Limit = Limit(minimum: i32, maximum: i32)
  type Limits = l: seq<Limit> | |l| == JOINT_COUNT witness seq(JOINT_COUNT, _ => Limit(0, 0))

  datatype ExecState = Closed | Priming | Running | Hold | Succeeded | Aborted

  datatype Reason =
    | NoReason | PlannedHorizon | QueueUnderflow | CommandTimeout
    | MissedApplyTick | TrackingError | InvalidTimeline

  datatype Result =
    | Done | Waiting | OutputReady | Terminal | BadState | PayloadRejected
    | BatchRejected | JointLimitRejected | InsufficientPrime | InvalidAnchor

  datatype Diagnostics = Diagnostics(
    state: ExecState, reason: Reason, lastStatus: StreamStatus, lastContract: ContractResult,
    accepted: u32, applied: u32, outputs: u32, splices: u32, lastCommandTick: u32,
    terminalTick: u32, maximumLateness: u32, maximumTrackingError: seq<u32>,
    queued: nat, peakQueued: nat, trackingErrorJoint: nat, safeStopRequired: bool)

  const NO_ERRORS: seq<u32> := [0, 0, 0, 0, 0, 0, 0, 0, 0, 0, 0, 0]

  datatype Executor = Executor(
    session: Session, caps: HardCaps, limits: Limits, anchor: Setpoint, lastOutput: Vec,
    diag: Diagnostics, controlEpochTick: u32, lastStepTick: u32,
    anchorValid: bool, outputValid: bool, lastStepValid: bool)

  /** The executor after `init`; the source refuses limits that are not
      strictly ordered. */
  predicate LimitsOrdered(limits: Limits) {
    forall j :: 0 <= j < JOINT_COUNT ==> limits[j].minimum < limits[j].maximum
  }

  function FreshDiagnostics(state: ExecState, status: StreamStatus, contract: ContractResult): Diagnostics {
    Diagnostics(state, NoReason, status, contract, 0, 0, 0, 0, 0, 0, 0, NO_ERRORS, 0, 0, 0, false)
  }

  function ExecInit(caps: HardCaps, limits: Limits): Executor {
    Executor(CLOSED_SESSION, caps, limits, ZERO_SETPOINT, ZERO_VEC,
             FreshDiagnostics(Closed, NotOpen, ContractOk), 0, 0, false, false, false)
  }

  predicate WithinLimits(limits: Limits, pos: Vec) {
    forall j :: 0 <= j < JOINT_COUNT ==> limits[j].minimum <= pos[j] <= limits[j].maximum
  }

  /** The first tick of the control grid at or after `apply`. */
  function FirstControlTick(epoch: u32, apply: u32): u32 {
    Add32(epoch, Add32(Sub32(apply, epoch), CONTROL_TICK_MS - 1) / CONTROL_TICK_MS * CONTROL_TICK_MS)
  }

  function NoteQueue(d: Diagnostics, count: nat): Diagnostics {
    d.(queued := count, peakQueued := if count > d.peakQueued then count else d.peakQueued)
  }

  function Terminate(d: Diagnostics, state: ExecState, reason: Reason, now: u32, safeStop: bool): Diagnostics {
    d.(state := state, reason := reason, terminalTick := now, safeStopRequired := safeStop)
  }

  function RecordOutput(e: Executor, output: Vec): Executor {
    e.(lastOutput := output, outputValid := true, diag := e.diag.(outputs := Add32(e.diag.outputs, 1)))
  }

  // ---- Open and admit ----

  function ExecOpen(e: Executor, payload: seq<u8>, now: u32): (Executor, Result) {
    if e.diag.state == Running then (e, BadState)
    else
      var (session, reply) := SessionOpen(e.session, payload, e.caps, now);
      if reply.contract != ContractOk then
        (e.(session := session, diag := e.diag.(lastStatus := reply.status, lastContract := reply.contract)),
         PayloadRejected)
      else
        (e.(session := session, anchor := ZERO_SETPOINT,
            diag := FreshDiagnostics(Priming, reply.status, reply.contract),
            anchorValid := false, outputValid := false, lastStepValid := false), Done)
  }

  /** The executor's own check between the queue's tail and an append. */
  predicate CrossBatchOk(tail: Setpoint, batch: Batch, maximumStep: Vec)
    requires |batch.samples| > 0
  {
    var delta := Sub32(batch.firstApplyTick, tail.tick);
    TickAfter(batch.firstApplyTick, tail.tick) ==>
      && delta % CONTROL_TICK_MS == 0
      && forall j :: 0 <= j < JOINT_COUNT ==>
           AbsDiff(batch.samples[0].pos[j], tail.pos[j]) <= maximumStep[j] * (delta / CONTROL_TICK_MS)
  }

  predicate BatchWithinLimits(limits: Limits, samples: seq<Setpoint>) {
    forall i :: 0 <= i < |samples| ==> WithinLimits(limits, samples[i].pos)
  }

  /** A batch that passed the executor's own checks meets the session. */
  function ExecCommit(e: Executor, batch: Batch, kind: Kind, now: u32): (Executor, Result)
    requires 0 < |batch.samples| <= WIRE_MAX_SAMPLES
  {
    var (session, reply) := if e.session.open then SessionAdmit(e.session, batch, kind, now)
                            else (e.session, ReplyFrom(e.session, NotOpen, ContractOk));
    var d := e.diag.(lastStatus := reply.status, lastContract := reply.contract);
    if reply.contract != ContractOk || reply.status != ValidationOnly then
      (e.(session := session, diag := d), BatchRejected)
    else
      var counted := d.(accepted := Add32(d.accepted, |batch.samples|), lastCommandTick := now,
                        splices := if kind == Splice then Add32(d.splices, 1) else d.splices);
      (e.(session := session, diag := NoteQueue(counted, |session.samples|)), Done)
  }

  /** A decoded batch meets a priming or running executor. */
  function ExecAdmitBatch(e: Executor, batch: Batch, kind: Kind, now: u32): (Executor, Result)
    requires 0 < |batch.samples| <= WIRE_MAX_SAMPLES
  {
    var queue := e.session.samples;
    if !BatchWithinLimits(e.limits, batch.samples) then (e, JointLimitRejected)
    else if kind == Append && |queue| > 0
            && !CrossBatchOk(queue[|queue| - 1], batch, e.session.policy.maximumStep) then
      (e.(diag := e.diag.(lastContract := SampleDiscontinuity)), BatchRejected)
    else ExecCommit(e, batch, kind, now)
  }

  function ExecAdmit(e: Executor, payload: seq<u8>, kind: Kind, now: u32): (Executor, Result) {
    if e.diag.state != Priming && e.diag.state != Running then (e, BadState)
    else
      match DecodeBatch(payload, kind)
      case Rejected(why) => (e.(diag := e.diag.(lastContract := why)), PayloadRejected)
      case Ok(batch) => ExecAdmitBatch(e, batch, kind, now)
  }

  // ---- Start ----

  /** The anchor may reach the first sample: within the step limit for every
      control tick up to it. */
  predicate AnchorReaches(first: Setpoint, now: u32, pos: Vec, maximumStep: Vec) {
    var outputTicks := Add32(Sub32(first.tick, now), CONTROL_TICK_MS - 1) / CONTROL_TICK_MS;
    forall j :: 0 <= j < JOINT_COUNT ==> AbsDiff(first.pos[j], pos[j]) <= maximumStep[j] * outputTicks
  }

  function ExecStart(e: Executor, now: u32, pos: Vec): (Executor, Result) {
    var queue := e.session.samples;
    if e.diag.state != Priming then (e, BadState)
    else if |queue| < e.session.policy.minimumStartSamples then (e, InsufficientPrime)
    else if |queue| == 0 then (e, InvalidAnchor)
    else if !WithinLimits(e.limits, pos) || !TickAfter(queue[0].tick, now) then (e, InvalidAnchor)
    else if !AnchorReaches(queue[0], now, pos, e.session.policy.maximumStep) then (e, InvalidAnchor)
    else
      (e.(anchor := Setpoint(now, pos), anchorValid := true, controlEpochTick := now, lastStepTick := now,
          lastStepValid := true, diag := e.diag.(state := Running)), Done)
  }

  // ---- Step ----

  /** The statistics of an applied sample that leaves `count` in the queue. */
  function NoteApply(d: Diagnostics, lateness: u32, count: nat): Diagnostics {
    NoteQueue(d.(maximumLateness := if lateness > d.maximumLateness then lateness else d.maximumLateness), count).
      (applied := Add32(d.applied, 1))
  }

  /** The first sample is put out and becomes the anchor. */
  function ApplyFirst(e: Executor, lateness: u32): Executor
    requires |e.session.samples| > 0
  {
    var next, rest := e.session.samples[0], e.session.samples[1..];
    RecordOutput(e.(anchor := next, session := e.session.(samples := rest), diag := NoteApply(e.diag, lateness,
        |rest|)),
                 next.pos)
  }

  /** The first sample is due: output it, make it the anchor, and finish if it
      was the sample at the horizon and nothing is left. */
  function StepApply(e: Executor, now: u32, due: u32): (Executor, Result, Option<Vec>)
    requires |e.session.samples| > 0
  {
    var next := e.session.samples[0];
    var lateness := Sub32(now, due);
    if lateness > e.session.policy.maximumApplyLatenessMs then
      (e.(diag := Terminate(e.diag, Aborted, MissedApplyTick, now, true)), Terminal, None)
    else
      var e' := ApplyFirst(e, lateness);
      if e.session.horizonEndTick != 0 && next.tick == e.session.horizonEndTick && |e.session.samples| == 1 then
        (e'.(diag := Terminate(e'.diag, Succeeded, PlannedHorizon, now, false)), Terminal, Some(next.pos))
      else (e', OutputReady, Some(next.pos))
  }

  /** Before the first sample is due: a point of the segment leading to it. */
  function StepInterpolate(e: Executor, now: u32): (Executor, Result, Option<Vec>)
    requires |e.session.samples| > 0
  {
    var next := e.session.samples[0];
    var span := Sub32(next.tick, e.anchor.tick);
    var elapsed := Sub32(now, e.anchor.tick);
    if span == 0 || elapsed > span then
      (e.(diag := Terminate(e.diag, Aborted, InvalidTimeline, now, true)), Terminal, None)
    else
      var output := LerpVec(e.anchor.pos, next.pos, elapsed, span);
      (RecordOutput(e, output), OutputReady, Some(output))
  }

  /** The command timeout of an open-ended stream. */
  predicate TimedOut(e: Executor, now: u32) {
    e.session.horizonEndTick == 0 && Sub32(now, e.diag.lastCommandTick) > e.session.policy.commandTimeoutMs
  }

  /** An executor that is running and whose clock has not gone backwards. */
  function StepRunning(e: Executor, now: u32): (Executor, Result, Option<Vec>) {
    var queue := e.session.samples;
    if TimedOut(e, now) then
      var held := RecordOutput(e, e.anchor.pos);
      (held.(diag := Terminate(held.diag, Hold, CommandTimeout, now, true)), Terminal, Some(e.anchor.pos))
    else if |queue| == 0 then
      if e.session.horizonEndTick != 0 then
        (e.(diag := Terminate(e.diag, Aborted, QueueUnderflow, now, true)), Terminal, None)
      else (RecordOutput(e, e.anchor.pos), OutputReady, Some(e.anchor.pos))
    else
      var due := FirstControlTick(e.controlEpochTick, queue[0].tick);
      if !TickAfter(due, now) then StepApply(e, now, due) else StepInterpolate(e, now)
  }

  function ExecStep(e: Executor, now: u32): (Executor, Result, Option<Vec>) {
    if e.diag.state == Priming then (e, Waiting, None)
    else if e.diag.state != Running || !e.anchorValid then (e, BadState, None)
    else if (e.lastStepValid && TickAfter(e.lastStepTick, now)) || TickAfter(e.anchor.tick, now) then
      (e.(diag := Terminate(e.diag, Aborted, InvalidTimeline, now, true)), Terminal, None)
    else StepRunning(e.(lastStepTick := now, lastStepValid := true), now)
  }

  /** The vectors the servo dispatcher is given: only these results pass its
      gate, whatever the step wrote into its output. */
  function Dispatched(r: (Executor, Result, Option<Vec>)): Option<Vec> {
    if r.1 == OutputReady || (r.1 == Terminal && r.0.diag.state == Succeeded) then r.2 else None
  }

  // ---- Feedback ----

  function NoteError(d: Diagnostics, joint: nat, error: u32): Diagnostics {
    if joint < |d.maximumTrackingError| && error > d.maximumTrackingError[joint]
    then d.(maximumTrackingError := d.maximumTrackingError[joint := error]) else d
  }

  function ExecJointFeedback(e: Executor, now: u32, joint: nat, commanded: i32, measured: i32): (Executor, Result) {
    if joint >= JOINT_COUNT || (e.diag.state != Running && e.diag.state != Succeeded) || !e.outputValid then
      (e, BadState)
    else
      var error := AbsDiff(commanded, measured);
      var d := NoteError(e.diag, joint, error);
      if error > AsU32(e.session.policy.trackingErrorLimit[joint]) then
        (e.(diag := Terminate(d.(trackingErrorJoint := joint), Aborted, TrackingError, now, true)), Terminal)
      else (e.(diag := d), Done)
  }
}
