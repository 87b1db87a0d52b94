/** The executor as the firmware keeps it: one object whose operations update
    its fields and its embedded session in place. Every operation is tied to
    the function of the same name in `StreamExecutor`. */
module StreamExecutorObject {
  import opened Words
  import opened Interpolation
  import opened StreamContract
  import opened StreamSession
  import opened StreamExecutor

  method WithinLimitsLoop(limits: Limits, pos: Vec) returns (ok: bool)
    ensures ok == WithinLimits(limits, pos)
  {
    for j := 0 to JOINT_COUNT
      invariant forall k :: 0 <= k < j ==> limits[k].minimum <= pos[k] <= limits[k].maximum
    {
      if pos[j] < limits[j].minimum || pos[j] > limits[j].maximum { return false; }
    }
    ok := true;
  }

  method BatchWithinLimitsLoop(limits: Limits, samples: seq<Setpoint>) returns (ok: bool)
    ensures ok == BatchWithinLimits(limits, samples)
  {
    for i := 0 to |samples|
      invariant forall k :: 0 <= k < i ==> WithinLimits(limits, samples[k].pos)
    {
      var within := WithinLimitsLoop(limits, samples[i].pos);
      if !within { return false; }
    }
    ok := true;
  }

  method CrossBatchLoop(tail: Setpoint, batch: Batch, maximumStep: Vec) returns (ok: bool)
    requires |batch.samples| > 0
    ensures ok == CrossBatchOk(tail, batch, maximumStep)
  {
    if TickAfter(batch.firstApplyTick, tail.tick) {
      var delta := Sub32(batch.firstApplyTick, tail.tick);
      if delta % CONTROL_TICK_MS != 0 { return false; }
      for j := 0 to JOINT_COUNT
        invariant forall k :: 0 <= k < j ==>
                    AbsDiff(batch.samples[0].pos[k], tail.pos[k]) <= maximumStep[k] * (delta / CONTROL_TICK_MS)
      {
        if AbsDiff(batch.samples[0].pos[j], tail.pos[j]) > maximumStep[j] * (delta / CONTROL_TICK_MS) {
          return false;
        }
      }
    }
    ok := true;
  }

  class ExecutorObject {
    const session: SessionObject
    var caps: HardCaps
    var limits: Limits
    var anchor: Setpoint
    var lastOutput: Vec
    var diag: Diagnostics
    var controlEpochTick: u32
    var lastStepTick: u32
    var anchorValid: bool
    var outputValid: bool
    var lastStepValid: bool

    ghost predicate Valid()
      reads this, session
    {
      session.Valid()
    }

    function Value(): Executor
      requires Valid()
      reads this, session, session.buffer
    {
      Executor(session.Value(), caps, limits, anchor, lastOutput, diag, controlEpochTick, lastStepTick,
               anchorValid, outputValid, lastStepValid)
    }

    /** `init`, for limits the source accepts. */
    constructor (hardCaps: HardCaps, jointLimits: Limits)
      requires LimitsOrdered(jointLimits)
      ensures Valid() && fresh(session) && fresh(session.buffer)
      ensures Value() == ExecInit(hardCaps, jointLimits)
    {
      session := new SessionObject();
      caps, limits, anchor, lastOutput := hardCaps, jointLimits, ZERO_SETPOINT, ZERO_VEC;
      diag := FreshDiagnostics(Closed, NotOpen, ContractOk);
      controlEpochTick, lastStepTick := 0, 0;
      anchorValid, outputValid, lastStepValid := false, false, false;
    }

    method Open(payload: seq<u8>, now: u32) returns (r: Result)
      requires Valid()
      modifies this, session
      ensures Valid()
      ensures (Value(), r) == ExecOpen(old(Value()), payload, now)
    {
      hide SessionOpen;
      if diag.state == Running { return BadState; }
      var reply := session.Open(payload, caps, now);
      if reply.contract != ContractOk {
        diag := diag.(lastStatus := reply.status, lastContract := reply.contract);
        return PayloadRejected;
      }
      anchor := ZERO_SETPOINT;
      diag := FreshDiagnostics(Priming, reply.status, reply.contract);
      anchorValid, outputValid, lastStepValid := false, false, false;
      r := Done;
    }

    method Admit(payload: seq<u8>, kind: Kind, now: u32) returns (r: Result)
      requires Valid()
      modifies this, session, session.buffer
      ensures Valid()
      ensures (Value(), r) == ExecAdmit(old(Value()), payload, kind, now)
    {
      hide ExecAdmitBatch;
      if diag.state != Priming && diag.state != Running { return BadState; }
      var decoded := DecodeBatchLoop(payload, kind);
      if decoded.Rejected? {
        diag := diag.(lastContract := decoded.why);
        return PayloadRejected;
      }
      r := AdmitBatch(payload, decoded.value, kind, now);
    }

    method AdmitBatch(payload: seq<u8>, batch: Batch, kind: Kind, now: u32) returns (r: Result)
      requires Valid() && DecodeBatch(payload, kind) == Ok(batch) && 0 < |batch.samples| <= WIRE_MAX_SAMPLES
      modifies this, session, session.buffer
      ensures Valid()
      ensures (Value(), r) == ExecAdmitBatch(old(Value()), batch, kind, now)
    {
      hide ExecCommit, BatchWithinLimits, CrossBatchOk, DecodeBatch;
      var within := BatchWithinLimitsLoop(limits, batch.samples);
      if !within { return JointLimitRejected; }
      if kind == Append && session.count > 0 {
        var crossOk := CrossBatchLoop(session.buffer[session.count - 1], batch, session.policy.maximumStep);
        if !crossOk {
          diag := diag.(lastContract := SampleDiscontinuity);
          return BatchRejected;
        }
      }
      r := Commit(payload, batch, kind, now);
    }

    method Commit(payload: seq<u8>, batch: Batch, kind: Kind, now: u32) returns (r: Result)
      requires Valid() && DecodeBatch(payload, kind) == Ok(batch) && 0 < |batch.samples| <= WIRE_MAX_SAMPLES
      modifies this, session, session.buffer
      ensures Valid()
      ensures (Value(), r) == ExecCommit(old(Value()), batch, kind, now)
    {
      hide SessionAdmit, DecodeBatch;
      var reply := session.Batch(payload, kind, now);
      diag := diag.(lastStatus := reply.status, lastContract := reply.contract);
      if reply.contract != ContractOk || reply.status != ValidationOnly { return BatchRejected; }
      diag := diag.(accepted := Add32(diag.accepted, |batch.samples|), lastCommandTick := now,
                    splices := if kind == Splice then Add32(diag.splices, 1) else diag.splices);
      UpdateQueueDiagnostics();
      r := Done;
    }

    method UpdateQueueDiagnostics()
      requires Valid()
      modifies this`diag
      ensures diag == NoteQueue(old(diag), session.count)
    {
      diag := diag.(queued := session.count);
      if diag.queued > diag.peakQueued { diag := diag.(peakQueued := diag.queued); }
    }

    method Start(now: u32, pos: Vec) returns (r: Result)
      requires Valid()
      requires diag.state == Priming ==> session.policy.minimumStartSamples > 0
      modifies this
      ensures Valid()
      ensures (Value(), r) == ExecStart(old(Value()), now, pos)
    {
      if diag.state != Priming { return BadState; }
      if session.count < session.policy.minimumStartSamples { return InsufficientPrime; }
      var first := session.buffer[0];
      var within := WithinLimitsLoop(limits, pos);
      if !within || !TickAfter(first.tick, now) { return InvalidAnchor; }
      var outputTicks := Add32(Sub32(first.tick, now), CONTROL_TICK_MS - 1) / CONTROL_TICK_MS;
      for j := 0 to JOINT_COUNT
        invariant forall k :: 0 <= k < j ==>
                    AbsDiff(first.pos[k], pos[k]) <= session.policy.maximumStep[k] * outputTicks
      {
        if AbsDiff(first.pos[j], pos[j]) > session.policy.maximumStep[j] * outputTicks { return InvalidAnchor; }
      }
      anchor, anchorValid := Setpoint(now, pos), true;
      controlEpochTick, lastStepTick, lastStepValid := now, now, true;
      diag := diag.(state := Running);
      r := Done;
    }

    /** Drop the first sample: the rest moves down one place. */
    method ConsumeFirst(lateness: u32)
      requires Valid() && session.count > 0
      modifies this`diag, session`count, session.buffer
      ensures Valid() && session.Value() == old(session.Value()).(samples := old(session.Value().samples)[1..])
      ensures diag == NoteApply(old(diag), lateness, session.count)
    {
      if lateness > diag.maximumLateness { diag := diag.(maximumLateness := lateness); }
      session.RemoveFirst();
      UpdateQueueDiagnostics();
      diag := diag.(applied := Add32(diag.applied, 1));
    }

    method CopyOut(pos: Vec, output: array<i32>)
      requires output.Length == JOINT_COUNT
      modifies output
      ensures output[..] == pos
    {
      for j := 0 to JOINT_COUNT
        invariant output[..j] == pos[..j]
      {
        output[j] := pos[j];
      }
      assert output[..] == output[..JOINT_COUNT] == pos[..JOINT_COUNT] == pos;
    }

    method LerpInto(a: Vec, b: Vec, elapsed: u32, span: u32, output: array<i32>)
      requires output.Length == JOINT_COUNT && 0 < span
      modifies output
      ensures output[..] == LerpVec(a, b, elapsed, span)
    {
      for j := 0 to JOINT_COUNT
        invariant output[..j] == LerpVec(a, b, elapsed, span)[..j]
      {
        output[j] := Lerp(a[j], b[j], elapsed, span);
      }
    }

    method TakeFirst(lateness: u32)
      requires Valid() && session.count > 0
      modifies this, session`count, session.buffer
      ensures Valid() && Value() == ApplyFirst(old(Value()), lateness)
      ensures anchor == old(session.buffer[0]) && session.count == old(session.count) - 1
      ensures session.horizonEndTick == old(session.horizonEndTick)
    {
      hide NoteApply, RecordOutput;
      MoveAnchor(lateness);
      Record(anchor.pos);
    }

    method MoveAnchor(lateness: u32)
      requires Valid() && session.count > 0
      modifies this`anchor, this`diag, session`count, session.buffer
      ensures Valid() && anchor == old(session.buffer[0]) && session.count == old(session.count) - 1
      ensures session.horizonEndTick == old(session.horizonEndTick)
      ensures var was := old(Value());
              Value() == was.(anchor := was.session.samples[0],
                  session := was.session.(samples := was.session.samples[1..]),
                              diag := NoteApply(was.diag, lateness, |was.session.samples[1..]|))
    {
      hide NoteApply;
      anchor := session.buffer[0];
      ConsumeFirst(lateness);
    }

    method Record(pos: Vec)
      requires Valid()
      modifies this`lastOutput, this`outputValid, this`diag
      ensures Valid() && Value() == RecordOutput(old(Value()), pos)
    {
      lastOutput, outputValid := pos, true;
      diag := diag.(outputs := Add32(diag.outputs, 1));
    }

    method Apply(now: u32, due: u32, output: array<i32>) returns (r: Result)
      requires Valid() && session.count > 0 && output.Length == JOINT_COUNT
      modifies this, session`count, session.buffer, output
      ensures Valid()
      ensures (Value(), r) == (StepApply(old(Value()), now, due).0, StepApply(old(Value()), now, due).1)
      ensures output[..] == Written(StepApply(old(Value()), now, due).2, old(output[..]))
    {
      hide ApplyFirst;
      var lateness := Sub32(now, due);
      if lateness > session.policy.maximumApplyLatenessMs {
        diag := Terminate(diag, Aborted, MissedApplyTick, now, true);
        return Terminal;
      }
      CopyOut(session.buffer[0].pos, output);
      TakeFirst(lateness);
      if session.horizonEndTick != 0 && anchor.tick == session.horizonEndTick && session.count == 0 {
        diag := Terminate(diag, Succeeded, PlannedHorizon, now, false);
        return Terminal;
      }
      r := OutputReady;
    }

    method InterpolateStep(now: u32, output: array<i32>) returns (r: Result)
      requires Valid() && session.count > 0 && output.Length == JOINT_COUNT
      modifies this, output
      ensures Valid()
      ensures (Value(), r) == (StepInterpolate(old(Value()), now).0, StepInterpolate(old(Value()), now).1)
      ensures output[..] == Written(StepInterpolate(old(Value()), now).2, old(output[..]))
    {
      var next := session.buffer[0];
      var span := Sub32(next.tick, anchor.tick);
      var elapsed := Sub32(now, anchor.tick);
      if span == 0 || elapsed > span {
        diag := Terminate(diag, Aborted, InvalidTimeline, now, true);
        return Terminal;
      }
      LerpInto(anchor.pos, next.pos, elapsed, span, output);
      lastOutput, outputValid := output[..], true;
      diag := diag.(outputs := Add32(diag.outputs, 1));
      r := OutputReady;
    }

    method Hold(output: array<i32>)
      requires Valid() && output.Length == JOINT_COUNT
      modifies this, output
      ensures Valid() && Value() == RecordOutput(old(Value()), old(anchor.pos))
      ensures output[..] == old(anchor.pos)
    {
      CopyOut(anchor.pos, output);
      Record(anchor.pos);
    }

    method Step(now: u32, output: array<i32>) returns (r: Result)
      requires Valid() && output.Length == JOINT_COUNT
      modifies this, session`count, session.buffer, output
      ensures Valid()
      ensures Value() == ExecStep(old(Value()), now).0 && r == ExecStep(old(Value()), now).1
      ensures output[..] == Written(ExecStep(old(Value()), now).2, old(output[..]))
    {
      hide StepRunning;
      if diag.state == Priming { return Waiting; }
      if diag.state != Running || !anchorValid { return BadState; }
      if (lastStepValid && TickAfter(lastStepTick, now)) || TickAfter(anchor.tick, now) {
        diag := Terminate(diag, Aborted, InvalidTimeline, now, true);
        return Terminal;
      }
      lastStepTick, lastStepValid := now, true;
      r := Proceed(now, output);
    }

    /** A step whose clock has not gone backwards. */
    method Proceed(now: u32, output: array<i32>) returns (r: Result)
      requires Valid() && output.Length == JOINT_COUNT
      modifies this, session`count, session.buffer, output
      ensures Valid()
      ensures Value() == StepRunning(old(Value()), now).0 && r == StepRunning(old(Value()), now).1
      ensures output[..] == Written(StepRunning(old(Value()), now).2, old(output[..]))
    {
      hide StepApply, StepInterpolate, FirstControlTick;
      if session.horizonEndTick == 0 && Sub32(now, diag.lastCommandTick) > session.policy.commandTimeoutMs {
        Hold(output);
        diag := Terminate(diag, ExecState.Hold, CommandTimeout, now, true);
        return Terminal;
      }
      if session.count == 0 {
        if session.horizonEndTick != 0 {
          diag := Terminate(diag, Aborted, QueueUnderflow, now, true);
          return Terminal;
        }
        Hold(output);
        return OutputReady;
      }
      var due := FirstControlTick(controlEpochTick, session.buffer[0].tick);
      if !TickAfter(due, now) {
        r := Apply(now, due, output);
      } else {
        r := InterpolateStep(now, output);
      }
    }

    method CheckJointFeedback(now: u32, joint: nat, commanded: i32, measured: i32) returns (r: Result)
      requires Valid()
      modifies this`diag
      ensures Valid()
      ensures (Value(), r) == ExecJointFeedback(old(Value()), now, joint, commanded, measured)
    {
      if joint >= JOINT_COUNT || (diag.state != Running && diag.state != Succeeded) || !outputValid {
        return BadState;
      }
      var error := AbsDiff(commanded, measured);
      if joint < |diag.maximumTrackingError| && error > diag.maximumTrackingError[joint] {
        diag := diag.(maximumTrackingError := diag.maximumTrackingError[joint := error]);
      }
      if error > AsU32(session.policy.trackingErrorLimit[joint]) {
        diag := Terminate(diag.(trackingErrorJoint := joint), Aborted, TrackingError, now, true);
        return Terminal;
      }
      r := Done;
    }
  }

  /** The caller's output array after a step: overwritten or untouched. */
  function Written(output: Option<Vec>, before: seq<i32>): seq<i32> {
    match output
    case Some(v) => v
    case None => before
  }
}
