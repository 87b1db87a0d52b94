/** A run the slew bound does not cover, from reset to the jump: the queue
    drains, the executor holds its anchor, and an append that every check of
    the firmware and of the host lets through is resumed on from the middle of
    its segment. */
module DrainedAppend {
  import opened Words
  import opened StreamContract
  import opened StreamSession
  import opened StreamExecutor
  import opened ExecutorRuns
  import opened PlanRefinement
  import opened SegmentSlew
  import opened SlewBound
  import opened WireCodec

  // ---- The stream ----

  function All(x: i32): (v: Vec)
    ensures forall j :: 0 <= j < JOINT_COUNT ==> v[j] == x
  {
    [x, x, x, x, x, x, x, x, x, x, x, x]
  }

  const STEP := 9000
  const TRACKING := 90000
  const POLICY := Policy(2, ARM_MASK_BOTH, 20, 0, 400, 100, 5, All(TRACKING), All(STEP))
  const CAPS := HardCaps(20, 400, 500, 100, 5, All(TRACKING), All(STEP))
  const WIDE := Limit(-1570796, 1570796)
  const LIMITS: Limits := [WIDE, WIDE, WIDE, WIDE, WIDE, WIDE, WIDE, WIDE, WIDE, WIDE, WIDE, WIDE]

  /** Two samples to start on, and one that comes when they have long been
      applied: six step limits away, thirty milliseconds after them. */
  const FIRST := Batch(20, 0, 1, 0, ARM_MASK_BOTH, [Setpoint(20, ZERO_VEC), Setpoint(25, ZERO_VEC)])
  const LATE := Batch(55, 0, 1, 0, ARM_MASK_BOTH, [Setpoint(55, All(54000))])

  /** What the step after the late batch puts out: half of the way. */
  const JUMP: Vec := All(3 * STEP)

  /** The payloads are what the host's encoders make of the stream. */
  ghost predicate Spells(open: seq<u8>, first: seq<u8>, late: seq<u8>) {
    && EncodeOpen(AsHostPolicy(POLICY)) == Some(open)
    && EncodeBatch(AsHostBatch(FIRST), Append) == Some(first) && EncodeBatch(AsHostBatch(LATE), Append) == Some(late)
  }

  lemma SomePayloads() returns (open: seq<u8>, first: seq<u8>, late: seq<u8>)
    ensures Spells(open, first, late)
  {
    hide EncodeBatch, EncodeOpen, HeaderBytes, SamplesBytes, PolicyBytes;
    open := PolicyBytes(POLICY);
    PolicySpelled(POLICY, open);
    OpenWire(POLICY, open);
    first, late := BatchBytes(FIRST), BatchBytes(LATE);
    Encodes(FIRST);
    Encodes(LATE);
  }

  lemma Encodes(b: Batch)
    requires 0 < |b.samples| <= WIRE_MAX_SAMPLES && b.firstApplyTick == b.samples[0].tick
    requires NeighboursIncrease(b.samples) && WireOrdered(b)
    requires b.spliceAtTick == 0 && b.armMask == ARM_MASK_BOTH
    ensures EncodeBatch(AsHostBatch(b), Append) == Some(BatchBytes(b))
  {
    hide EncodeBatch, HeaderBytes, SamplesBytes, SamplesEncode;
    EncodesWhenOrdered(b);
    PacksAsBatch(b, Append);
  }

  lemma Spelled(open: seq<u8>, first: seq<u8>, late: seq<u8>)
    requires Spells(open, first, late)
    ensures DecodePolicy(open) == Ok(POLICY)
    ensures DecodeBatch(first, Append) == Ok(FIRST) && WireOrdered(FIRST)
    ensures DecodeBatch(late, Append) == Ok(LATE) && WireOrdered(LATE)
  {
    hide EncodeBatch, EncodeOpen, DecodeBatch, DecodePolicy;
    OpenWire(POLICY, open);
    BatchWire(FIRST, Append, first);
    BatchWire(LATE, Append, late);
  }

  // ---- The run ----

  /** How many samples the first n steps apply: the fifth step applies the
      sample at 20, the sixth the one at 25. */
  function AppliedIn(n: nat): nat {
    if n <= 4 then 0 else if n == 5 then 1 else 2
  }

  /** The executor after its start at tick 0 and n steps; the queue is empty
      from the sixth on. */
  function After(n: nat): Executor
    requires n <= 8
  {
    var applied := AppliedIn(n);
    Executor(Session(true, true, POLICY, 1, 0, if applied == 2 then [] else FIRST.samples[applied..]), CAPS, LIMITS,
             Setpoint(if applied == 0 then 0 else FIRST.samples[applied - 1].tick, ZERO_VEC), ZERO_VEC,
             Diagnostics(Running, NoReason, ValidationOnly, ContractOk, 2, applied, n, 0, 0, 0, 0,
                         NO_ERRORS, 2 - applied, 2, 0, false),
             0, if n == 0 then 0 else 5 * n - 5, true, n > 0, true)
  }

  /** From the n-th step on: steps, the late append, one more step. */
  function EventsFrom(n: nat, late: seq<u8>): seq<Event>
    requires n <= 8
    decreases 8 - n
  {
    if n == 8 then [AdmitEvent(late, Append, 35), StepEvent(40)] else [StepEvent(5 * n)] + EventsFrom(n + 1, late)
  }

  lemma ZeroLine(elapsed: u32, span: u32)
    requires 0 < span
    ensures LerpVec(ZERO_VEC, ZERO_VEC, elapsed, span) == ZERO_VEC
  {
  }

  lemma StepInterpolates(n: nat)
    requires n < 4
    ensures ExecStep(After(n), 5 * n) == (After(n + 1), OutputReady, Some(ZERO_VEC))
  {
    hide All, LerpVec;
    ZeroLine(5 * n, 20);
  }

  lemma StepApplies(n: nat)
    requires 4 <= n < 6
    ensures ExecStep(After(n), 5 * n) == (After(n + 1), OutputReady, Some(ZERO_VEC))
  {
    hide All, LerpVec;
  }

  lemma StepHolds(n: nat)
    requires 6 <= n < 8
    ensures ExecStep(After(n), 5 * n) == (After(n + 1), OutputReady, Some(ZERO_VEC))
  {
    hide All, LerpVec;
  }

  lemma StepStays(n: nat)
    requires n < 8
    ensures ExecStep(After(n), 5 * n) == (After(n + 1), OutputReady, Some(ZERO_VEC))
  {
    hide ExecStep, After;
    if n < 4 {
      StepInterpolates(n);
    } else if n < 6 {
      StepApplies(n);
    } else {
      StepHolds(n);
    }
  }

  /** The executor after the open, and after the first batch. */
  const READY := ExecInit(CAPS, LIMITS).(
                   session := CLOSED_SESSION.(open := true, policy := POLICY),
                   diag := FreshDiagnostics(Priming, ValidationOnly, ContractOk))
  const PRIMED := READY.(
                    session := READY.session.(samples := FIRST.samples, epochEstablished := true, arbiterEpoch := 1),
                    diag := READY.diag.(accepted := 2, queued := 2, peakQueued := 2))

  lemma Opens(open: seq<u8>)
    requires DecodePolicy(open) == Ok(POLICY)
    ensures ExecOpen(ExecInit(CAPS, LIMITS), open, 0) == (READY, Done)
  {
    assert forall j :: 0 <= j < JOINT_COUNT ==> JointPolicyOk(POLICY, CAPS, j);
  }

  lemma Primes(first: seq<u8>)
    requires DecodeBatch(first, Append) == Ok(FIRST)
    ensures ExecAdmit(READY, first, Append, 0) == (PRIMED, Done)
  {
    hide DecodeBatch;
    assert WithinLimits(LIMITS, ZERO_VEC);
    assert [] + FIRST.samples == FIRST.samples;
    assert BatchVerdict(READY.session, FIRST, Append, 0, ZERO_VEC) == ContractOk;
  }

  lemma Anchors()
    ensures ExecStart(PRIMED, 0, ZERO_VEC) == (After(0), Done)
  {
    assert WithinLimits(LIMITS, ZERO_VEC) && AnchorReaches(FIRST.samples[0], 0, ZERO_VEC, POLICY.maximumStep);
  }

  function PrimingEvents(open: seq<u8>, first: seq<u8>): seq<Event> {
    [OpenEvent(open, 0), AdmitEvent(first, Append, 0)]
  }

  lemma Starts(open: seq<u8>, first: seq<u8>)
    requires DecodePolicy(open) == Ok(POLICY) && DecodeBatch(first, Append) == Ok(FIRST) && WireOrdered(FIRST)
    ensures StartsPrimed(0, CAPS, LIMITS, PrimingEvents(open, first), 0, ZERO_VEC)
    ensures ExecStart(Primed(CAPS, LIMITS, PrimingEvents(open, first)), 0, ZERO_VEC).0 == After(0)
  {
    hide DecodeBatch, ExecOpen, ExecAdmit, ExecStart, WireOrdered;
    var priming := PrimingEvents(open, first);
    Opens(open);
    Primes(first);
    Anchors();
    var rest := priming[1..];
    assert rest == [AdmitEvent(first, Append, 0)] && rest[1..] == [];
    assert Run(READY, rest) == PRIMED;
    assert !SplicedAfter(READY, rest, false);
    assert TimelyRun(0, 0, CAPS, rest) && EndClock(0, rest) == 0;
  }

  // ---- The jump ----

  /** The executor after the late batch, still before its ninth step. */
  const RESUMED := After(8).(
                     session := After(8).session.(samples := LATE.samples),
                     diag := After(8).diag.(accepted := 3, lastCommandTick := 35, queued := 1))

  lemma LateIsAdmitted(late: seq<u8>)
    requires DecodeBatch(late, Append) == Ok(LATE)
    ensures ExecAdmit(After(8), late, Append, 35) == (RESUMED, Done)
  {
    hide DecodeBatch, All;
    assert WithinLimits(LIMITS, All(54000));
    assert [] + LATE.samples == LATE.samples;
    assert BatchVerdict(After(8).session, LATE, Append, 35, ZERO_VEC) == ContractOk;
  }

  lemma LateIsTimely(late: seq<u8>)
    requires DecodeBatch(late, Append) == Ok(LATE) && WireOrdered(LATE)
    ensures Resuming(0, 8, After(8), late, 35) && Timely(0, 0, CAPS, AdmitEvent(late, Append, 35))
  {
    hide DecodeBatch, All, StepAllowed;
    LateIsAllowed();
  }

  lemma HalfWay()
    ensures LerpVec(ZERO_VEC, All(54000), 15, 30) == JUMP
  {
    hide All;
    forall j | 0 <= j < JOINT_COUNT
      ensures LerpVec(ZERO_VEC, All(54000), 15, 30)[j] == JUMP[j]
    {
    }
  }

  lemma StepJumps()
    ensures Dispatched(ExecStep(RESUMED, 40)) == Some(JUMP)
  {
    hide All, LerpVec;
    HalfWay();
  }

  lemma TailJumps(late: seq<u8>)
    requires DecodeBatch(late, Append) == Ok(LATE) && WireOrdered(LATE)
    ensures Paced(0, 8, After(8), EventsFrom(8, late)) && Outputs(After(8), EventsFrom(8, late)) == [JUMP]
    ensures !ResumesClose(0, 8, After(8), EventsFrom(8, late), true, 2)
  {
    hide DecodeBatch, ExecAdmit, ExecStep, Resuming, Timely, ResumeClose, LerpVec;
    var events := EventsFrom(8, late);
    LateIsAdmitted(late);
    LateIsTimely(late);
    HalfWay();
    StepJumps();
    assert events[1..] == [StepEvent(40)] && [StepEvent(40)][1..] == [];
    assert Outputs(RESUMED, events[1..]) == [JUMP];
    assert !ResumeClose(ZERO_VEC, All(54000), 25, 55, 8, POLICY.maximumStep, 2) by {
      ResumeDecides(ZERO_VEC, All(54000), 25, 55, 8, POLICY.maximumStep, 2);
      assert SegmentPoint(ZERO_VEC, All(54000), 25, 55, 8) == JUMP;
      assert AbsDiff(JUMP[0], ZERO_VEC[0]) == 27000;
    }
  }

  /** A paced run that goes on putting out zeros until its ninth vector, which
      is the jump. */
  ghost predicate JumpsFrom(n: nat, e: Executor, events: seq<Event>, spoken: bool) {
    var outputs := Outputs(e, events);
    && n <= 8 && Paced(0, n, e, events) && !ResumesClose(0, n, e, events, spoken, 2)
    && |outputs| == 9 - n && outputs[8 - n] == JUMP && (n < 8 ==> outputs[7 - n] == ZERO_VEC)
  }

  lemma StepFirst(n: nat, e: Executor, after: Executor, rest: seq<Event>, spoken: bool)
    requires n < 8 && ExecStep(e, 5 * n) == (after, OutputReady, Some(ZERO_VEC)) && JumpsFrom(n + 1, after, rest, true)
    ensures JumpsFrom(n, e, [StepEvent(5 * n)] + rest, spoken)
  {
    hide ExecStep, ExecAdmit, ExecOpen, ExecStart, ExecJointFeedback, Timely, Resuming, ResumeClose, All;
    var events := [StepEvent(5 * n)] + rest;
    assert events[1..] == rest && Add32(0, 5 * n) == 5 * n;
    assert Outputs(e, events) == [ZERO_VEC] + Outputs(after, rest);
  }

  lemma {:induction false} RunJumps(n: nat, late: seq<u8>, spoken: bool)
    requires n <= 8 && (n == 8 ==> spoken)
    requires DecodeBatch(late, Append) == Ok(LATE) && WireOrdered(LATE)
    ensures JumpsFrom(n, After(n), EventsFrom(n, late), spoken)
    decreases 8 - n
  {
    hide DecodeBatch, WireOrdered, After, Paced, Outputs, ResumesClose, ExecStep, All;
    if n == 8 {
      TailJumps(late);
    } else {
      hide JumpsFrom;
      StepStays(n);
      RunJumps(n + 1, late, true);
      StepFirst(n, After(n), After(n + 1), EventsFrom(n + 1, late), spoken);
    }
  }

  lemma TooFar(outputs: seq<Vec>)
    requires |outputs| == 9 && outputs[7] == ZERO_VEC && outputs[8] == JUMP
    ensures !Slewed(outputs, All(STEP), 2)
  {
    assert AbsDiff(JUMP[0], ZERO_VEC[0]) == 27000 && ZERO_VEC[0] == 0;
    hide All;
    assert All(STEP)[0] == STEP;
    assert !Close(outputs[7], outputs[8], All(STEP), 2);
  }

  lemma LateIsAllowed()
    ensures StepAllowed(FIRST.samples[1], LATE.samples[0], All(STEP))
  {
    hide All;
  }

  /** From reset: a stream is opened, primed with two samples and started, runs
      dry, and an append arrives on time, an allowed step from the anchor. Every
      request is accepted, yet the next vector is three step limits from the
      one before it. */
  lemma AppendJumps() returns (open: seq<u8>, first: seq<u8>, late: seq<u8>)
    ensures Spells(open, first, late)
    ensures StartsPrimed(0, CAPS, LIMITS, PrimingEvents(open, first), 0, ZERO_VEC)
    ensures var started := ExecStart(Primed(CAPS, LIMITS, PrimingEvents(open, first)), 0, ZERO_VEC).0;
            var outputs := Outputs(started, EventsFrom(0, late));
            && Paced(0, 0, started, EventsFrom(0, late)) && StepAllowed(FIRST.samples[1], LATE.samples[0], All(STEP))
            && |outputs| == 9 && outputs[7] == ZERO_VEC && outputs[8] == JUMP
            && !Slewed(outputs, All(STEP), 2) && !ResumesClose(0, 0, started, EventsFrom(0, late), false, 2)
  {
    hide Spells, StartsPrimed, Paced, Outputs, ResumesClose, DecodeBatch, DecodePolicy, WireOrdered, EventsFrom, After,
         ExecStart, Primed, PrimingEvents, Slewed, StepAllowed;
    open, first, late := SomePayloads();
    Spelled(open, first, late);
    Starts(open, first);
    RunJumps(0, late, false);
    TooFar(Outputs(After(0), EventsFrom(0, late)));
    LateIsAllowed();
  }
}
