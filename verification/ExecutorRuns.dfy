/** Whole runs of the executor: whatever is opened, admitted, started, stepped
    and fed back, in any order and at any ticks. */
module ExecutorRuns {
  import opened Words
  import opened Interpolation
  import opened StreamContract
  import opened StreamSession
  import opened StreamExecutor

  datatype Event =
    | OpenEvent(payload: seq<u8>, now: u32)
    | AdmitEvent(payload: seq<u8>, kind: Kind, now: u32)
    | StartEvent(now: u32, pos: Vec)
    | StepEvent(now: u32)
    | FeedbackEvent(now: u32, joint: nat, commanded: i32, measured: i32)

  function Handle(e: Executor, event: Event): (Executor, Result) {
    match event
    case OpenEvent(payload, now) => ExecOpen(e, payload, now)
    case AdmitEvent(payload, kind, now) => ExecAdmit(e, payload, kind, now)
    case StartEvent(now, pos) => ExecStart(e, now, pos)
    case StepEvent(now) => (ExecStep(e, now).0, ExecStep(e, now).1)
    case FeedbackEvent(now, joint, commanded, measured) => ExecJointFeedback(e, now, joint, commanded, measured)
  }

  /** The executor after the events. */
  function Run(e: Executor, events: seq<Event>): Executor
    decreases |events|
  {
    if events == [] then e else Run(Handle(e, events[0]).0, events[1..])
  }

  /** The vectors an event dispatches to the servos. */
  function DispatchedBy(e: Executor, event: Event): seq<Vec> {
    if event.StepEvent? && Dispatched(ExecStep(e, event.now)).Some?
    then [Dispatched(ExecStep(e, event.now)).value] else []
  }

  /** Everything dispatched during the events, in order. */
  function Outputs(e: Executor, events: seq<Event>): seq<Vec>
    decreases |events|
  {
    if events == [] then [] else DispatchedBy(e, events[0]) + Outputs(Handle(e, events[0]).0, events[1..])
  }

  // ---- What every event keeps ----

  ghost predicate PolicyInForce(policy: Policy, caps: HardCaps) {
    && 1 <= policy.minimumStartSamples <= QUEUE_CAPACITY
    && policy.maximumLeadMs <= caps.maximumLeadMs
    && (forall j :: 0 <= j < JOINT_COUNT ==> 0 < policy.maximumStep[j])
    && (forall j :: 0 <= j < JOINT_COUNT ==> 0 < policy.trackingErrorLimit[j])
  }

  ghost predicate Sound(e: Executor) {
    && |e.session.samples| <= QUEUE_CAPACITY
    && e.diag.queued == |e.session.samples| <= e.diag.peakQueued <= QUEUE_CAPACITY
    && BatchWithinLimits(e.limits, e.session.samples)
    && (e.anchorValid ==> WithinLimits(e.limits, e.anchor.pos))
    && (e.diag.state != Closed ==> e.session.open && PolicyInForce(e.session.policy, e.caps))
    && (e.diag.state == Running ==> e.anchorValid)
    && (e.diag.state == Succeeded ==>
          e.session.samples == [] && e.session.horizonEndTick != 0
          && e.anchor.tick == e.session.horizonEndTick && e.lastOutput == e.anchor.pos)
    && (e.diag.safeStopRequired <==> e.diag.state == Hold || e.diag.state == Aborted)
    && (e.diag.state in {Closed, Priming, Running} <==> e.diag.reason == NoReason)
  }

  lemma LerpWithinLimits(limits: Limits, a: Vec, b: Vec, elapsed: u32, span: u32)
    requires 0 < span && elapsed <= span
    requires WithinLimits(limits, a) && WithinLimits(limits, b)
    ensures WithinLimits(limits, LerpVec(a, b, elapsed, span))
  {
    forall j | 0 <= j < JOINT_COUNT
      ensures limits[j].minimum <= LerpVec(a, b, elapsed, span)[j] <= limits[j].maximum
    {
      LerpExact(a[j], b[j], elapsed, span);
    }
  }

  /** A policy that passes validation bounds every step and every error. */
  lemma ValidatedPolicy(policy: Policy, caps: HardCaps, now: u32)
    requires ValidatePolicy(policy, caps, now) == ContractOk
    ensures PolicyInForce(policy, caps)
  {
    forall j | 0 <= j < JOINT_COUNT
      ensures 0 < policy.maximumStep[j] && 0 < policy.trackingErrorLimit[j]
    {
      assert JointPolicyOk(policy, caps, j);
    }
  }

  lemma OpenKeeps(e: Executor, payload: seq<u8>, now: u32)
    requires Sound(e)
    ensures Sound(ExecOpen(e, payload, now).0) && ExecOpen(e, payload, now).0.limits == e.limits
    ensures ExecOpen(e, payload, now).0.caps == e.caps
  {
    hide ValidatePolicy, PolicyInForce;
    if DecodePolicy(payload).Ok? {
      var policy := DecodePolicy(payload).value;
      if ValidatePolicy(policy, e.caps, now) == ContractOk {
        ValidatedPolicy(policy, e.caps, now);
      }
    }
  }

  lemma DecodedBatch(payload: seq<u8>, kind: Kind)
    requires DecodeBatch(payload, kind).Ok?
    ensures WellDecoded(DecodeBatch(payload, kind).value)
  {
    var b := DecodeBatch(payload, kind).value;
    assert b.samples[0] == WireSample(payload, 0);
  }

  /** What the decoder guarantees of a batch. */
  ghost predicate WellDecoded(b: Batch) {
    && 0 < |b.samples| <= WIRE_MAX_SAMPLES
    && b.samples[0].tick == b.firstApplyTick
    && NeighboursIncrease(b.samples)
  }

  /** What an admitted batch leaves behind. */
  lemma AdmittedShape(e: Executor, batch: Batch, kind: Kind, now: u32)
    requires 0 < |batch.samples| <= WIRE_MAX_SAMPLES
    requires ExecAdmitBatch(e, batch, kind, now).1 == Done
    ensures var after := ExecAdmitBatch(e, batch, kind, now).0;
            var kept := Kept(e.session, batch, kind);
            && kept + |batch.samples| <= QUEUE_CAPACITY
            && BatchWithinLimits(e.limits, batch.samples)
            && after.session == e.session.(samples := e.session.samples[..kept] + batch.samples,
                epochEstablished := true,
                                           arbiterEpoch := batch.arbiterEpoch, horizonEndTick := batch.horizonEndTick)
            && after == e.(session := after.session, diag := after.diag)
            && after.diag == NoteQueue(e.diag, |after.session.samples|).(
                 lastStatus := ValidationOnly, lastContract := ContractOk, lastCommandTick := now,
                 accepted := Add32(e.diag.accepted, |batch.samples|),
                 splices := if kind == Splice then Add32(e.diag.splices, 1) else e.diag.splices)
  {
    hide ValidateTransition, Interpolate, CrossBatchOk;
  }

  /** A session that does not take a batch does not change. */
  lemma SessionRefuses(s: Session, batch: Batch, kind: Kind, now: u32)
    ensures var (after, reply) := SessionAdmit(s, batch, kind, now);
            reply.contract != ContractOk || reply.status != ValidationOnly ==> after == s
  {
    hide BatchVerdict, Interpolate;
  }

  lemma SameVerdict(e: Executor)
    ensures e == e.(diag := e.diag.(lastStatus := e.diag.lastStatus, lastContract := e.diag.lastContract))
  {
  }

  /** A refused batch changes nothing but the last verdict. */
  lemma RefusedShape(e: Executor, batch: Batch, kind: Kind, now: u32)
    requires 0 < |batch.samples| <= WIRE_MAX_SAMPLES
    requires ExecAdmitBatch(e, batch, kind, now).1 != Done
    ensures var after := ExecAdmitBatch(e, batch, kind, now).0;
            after == e.(diag := e.diag.(lastStatus := after.diag.lastStatus, lastContract := after.diag.lastContract))
  {
    hide SessionAdmit, CrossBatchOk, BatchWithinLimits;
    SessionRefuses(e.session, batch, kind, now);
    SameVerdict(e);
  }

  lemma LimitsOfQueue(limits: Limits, a: seq<Setpoint>, kept: nat, b: seq<Setpoint>)
    requires BatchWithinLimits(limits, a) && BatchWithinLimits(limits, b) && kept <= |a|
    ensures BatchWithinLimits(limits, a[..kept] + b)
  {
  }

  lemma AdmitKeeps(e: Executor, payload: seq<u8>, kind: Kind, now: u32)
    requires Sound(e)
    ensures Sound(ExecAdmit(e, payload, kind, now).0) && ExecAdmit(e, payload, kind, now).0.limits == e.limits
    ensures ExecAdmit(e, payload, kind, now).0.caps == e.caps
  {
    if (e.diag.state == Priming || e.diag.state == Running) && DecodeBatch(payload, kind).Ok? {
      var batch := DecodeBatch(payload, kind).value;
      if ExecAdmitBatch(e, batch, kind, now).1 == Done {
        AdmittedShape(e, batch, kind, now);
        LimitsOfQueue(e.limits, e.session.samples, Kept(e.session, batch, kind), batch.samples);
      } else {
        RefusedShape(e, batch, kind, now);
      }
    }
  }

  ghost predicate StepResultSafe(e: Executor, r: (Executor, Result, Option<Vec>)) {
    && Sound(r.0) && r.0.limits == e.limits && r.0.caps == e.caps
    && (Dispatched(r).Some? ==> WithinLimits(e.limits, Dispatched(r).value))
  }

  lemma ApplyKeeps(e: Executor, now: u32, due: u32)
    requires Sound(e) && e.diag.state == Running && |e.session.samples| > 0
    ensures StepResultSafe(e, StepApply(e, now, due))
  {
    hide PolicyInForce;
    var queue := e.session.samples;
    assert WithinLimits(e.limits, queue[0].pos);
    LimitsOfQueue(e.limits, [], 0, queue);
    assert BatchWithinLimits(e.limits, queue[1..]);
  }

  lemma InterpolateKeeps(e: Executor, now: u32)
    requires Sound(e) && e.diag.state == Running && |e.session.samples| > 0
    ensures StepResultSafe(e, StepInterpolate(e, now))
  {
    var next := e.session.samples[0];
    var span, elapsed := Sub32(next.tick, e.anchor.tick), Sub32(now, e.anchor.tick);
    if 0 < span && elapsed <= span {
      LerpWithinLimits(e.limits, e.anchor.pos, next.pos, elapsed, span);
    }
  }

  lemma StepRunningKeeps(e: Executor, now: u32)
    requires Sound(e) && e.diag.state == Running
    ensures StepResultSafe(e, StepRunning(e, now))
  {
    if !TimedOut(e, now) && |e.session.samples| > 0 {
      ApplyKeeps(e, now, FirstControlTick(e.controlEpochTick, e.session.samples[0].tick));
      InterpolateKeeps(e, now);
    }
  }

  lemma StepKeeps(e: Executor, now: u32)
    requires Sound(e)
    ensures StepResultSafe(e, ExecStep(e, now))
  {
    var e' := e.(lastStepTick := now, lastStepValid := true);
    if e.diag.state == Running {
      StepRunningKeeps(e', now);
    }
  }

  lemma HandleKeeps(e: Executor, event: Event)
    requires Sound(e)
    ensures Sound(Handle(e, event).0) && Handle(e, event).0.limits == e.limits
    ensures Handle(e, event).0.caps == e.caps
    ensures forall v :: v in DispatchedBy(e, event) ==> WithinLimits(e.limits, v)
  {
    hide ExecOpen, ExecAdmit, ExecStep;
    match event
    case OpenEvent(payload, now) => OpenKeeps(e, payload, now);
    case AdmitEvent(payload, kind, now) => AdmitKeeps(e, payload, kind, now);
    case StartEvent(now, pos) =>
    case StepEvent(now) => StepKeeps(e, now);
    case FeedbackEvent(now, joint, commanded, measured) =>
  }

  /** Limit safety: from `init`, whatever happens and whatever the clock says,
      everything dispatched lies inside the executor's limits, the queue never
      exceeds its capacity, and SUCCEEDED means the horizon's sample was the
      last one applied. */
  lemma {:induction false} RunsAreSound(e: Executor, events: seq<Event>)
    requires Sound(e)
    ensures Sound(Run(e, events)) && Run(e, events).limits == e.limits
    ensures forall v :: v in Outputs(e, events) ==> WithinLimits(e.limits, v)
    decreases |events|
  {
    if events != [] {
      HandleKeeps(e, events[0]);
      RunsAreSound(Handle(e, events[0]).0, events[1..]);
    }
  }

  lemma InitIsSound(caps: HardCaps, limits: Limits)
    ensures Sound(ExecInit(caps, limits))
  {
  }

  /** A refused open or batch leaves the queue, the epoch, the horizon and the
      policy as they were. */
  lemma RefusalChangesNoPlan(e: Executor, payload: seq<u8>, kind: Kind, now: u32)
    ensures ExecAdmit(e, payload, kind, now).1 != Done ==> ExecAdmit(e, payload, kind, now).0.session == e.session
    ensures ExecOpen(e, payload, now).1 != Done ==> ExecOpen(e, payload, now).0.session == e.session
  {
    hide ValidateTransition, Interpolate, CrossBatchOk, BatchWithinLimits, DecodePolicy, ValidatePolicy;
    if DecodeBatch(payload, kind).Ok? {
      DecodedBatch(payload, kind);
    }
  }
}
