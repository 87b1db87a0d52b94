/** Protocol v2 stream contract: what the firmware decodes and checks before a
    policy or a batch of setpoints may touch a session. */
module StreamContract {
  import opened Words

  const JOINT_COUNT := 12
  const QUEUE_CAPACITY := 16
  const WIRE_MAX_SAMPLES := 9
  const STREAM_OPEN_WIRE_SIZE := 120
  const BATCH_HEADER_SIZE := 20
  const SAMPLE_WIRE_SIZE := 52
  const MINIMUM_SPLICE_LEAD_MS := 20
  const CONTROL_TICK_MS := 5
  const ARM_MASK_BOTH: u8 := 3

  type Vec = v: seq<i32> | |v| == JOINT_COUNT witness seq(JOINT_COUNT, _ => 0)

  datatype Setpoint = Setpoint(tick: u32, pos: Vec)

  datatype Kind = Append | Splice

  datatype Policy = Policy(
    minimumStartSamples: u16, armMask: u8, minimumLeadMs: u32, horizonEndTick: u32,
    maximumLeadMs: u32, commandTimeoutMs: u32, maximumApplyLatenessMs: u32,
    trackingErrorLimit: Vec, maximumStep: Vec)

  datatype HardCaps = HardCaps(
    minimumLeadMs: u32, maximumLeadMs: u32, maximumCommandTimeoutMs: u32,
    maximumOpenCommandTimeoutMs: u32, maximumApplyLatenessMs: u32,
    trackingErrorLimit: Vec, maximumStep: Vec)

  datatype Batch = Batch(
    firstApplyTick: u32, horizonEndTick: u32, arbiterEpoch: u32, spliceAtTick: u32,
    armMask: u8, samples: seq<Setpoint>)

  datatype ContractResult =
    | ContractOk | InvalidLength | InvalidArmMask | InvalidReserved
    | InvalidMinimumStartSamples | MinimumLeadTooSmall | MaximumLeadTooLarge
    | LeadWindowInverted | CommandTimeoutTooLarge | OpenTimeoutTooLarge
    | ApplyLatenessTooLarge | TrackingErrorTooLarge | MaximumStepTooLarge
    | StaleHorizon | InvalidSampleCount | NonMonotonicTick | AppendEpochMismatch
    | HorizonRegression | HorizonBeforeLastSample | SpliceFieldMismatch
    | SpliceTooLate | SpliceAfterLastSample | SpliceFirstTickMismatch
    | SpliceDiscontinuity | FirstSampleTooEarly | LastSampleTooLate
    | SampleDiscontinuity

  datatype Decoded<+T> = Ok(value: T) | Rejected(why: ContractResult)

  predicate ArmMaskIsValid(mask: u8) {
    1 <= mask <= ARM_MASK_BOTH
  }

  /** `(batch & policy) == batch` on the two arm bits. */
  predicate MaskWithin(batch: u8, policy: u8) {
    batch % 2 <= policy % 2 && batch / 2 % 2 <= policy / 2 % 2
  }

  // ---- Decoding ----

  function ReadVec(payload: seq<u8>, at: nat): Vec
    requires at + 4 * JOINT_COUNT <= |payload|
  {
    seq(JOINT_COUNT, j requires 0 <= j < JOINT_COUNT => AsI32(ReadU32(payload, at + 4 * j)))
  }

  function DecodePolicy(payload: seq<u8>): Decoded<Policy> {
    if |payload| != STREAM_OPEN_WIRE_SIZE then Rejected(InvalidLength)
    else if !ArmMaskIsValid(payload[2]) then Rejected(InvalidArmMask)
    else if payload[3] != 0 then Rejected(InvalidReserved)
    else Ok(Policy(ReadU16(payload, 0), payload[2], ReadU32(payload, 4), ReadU32(payload, 8),
                   ReadU32(payload, 12), ReadU32(payload, 16), ReadU32(payload, 20),
                   ReadVec(payload, 24), ReadVec(payload, 72)))
  }

  /** The i-th sample a batch payload spells. */
  function WireSample(payload: seq<u8>, i: nat): Setpoint
    requires BATCH_HEADER_SIZE + (i + 1) * SAMPLE_WIRE_SIZE <= |payload|
  {
    var offset := BATCH_HEADER_SIZE + i * SAMPLE_WIRE_SIZE;
    Setpoint(Add32(ReadU32(payload, 0), ReadU32(payload, offset)), ReadVec(payload, offset + 4))
  }

  function WireSamples(payload: seq<u8>, count: nat): (r: seq<Setpoint>)
    requires BATCH_HEADER_SIZE + count * SAMPLE_WIRE_SIZE <= |payload|
    ensures |r| == count
  {
    seq(count, i requires 0 <= i < count => WireSample(payload, i))
  }

  /** Each tick comes after the one before it: the only order the firmware
      checks inside a batch. */
  predicate NeighboursIncrease(samples: seq<Setpoint>) {
    forall i :: 0 < i < |samples| ==> TickAfter(samples[i].tick, samples[i - 1].tick)
  }

  predicate HeaderKindAgrees(payload: seq<u8>, kind: Kind)
    requires BATCH_HEADER_SIZE <= |payload|
  {
    match kind
    case Append => ReadU32(payload, 12) == 0
    case Splice => ReadU32(payload, 12) != 0
  }

  function DecodeBatch(payload: seq<u8>, kind: Kind): Decoded<Batch> {
    if |payload| < BATCH_HEADER_SIZE then Rejected(InvalidLength)
    else if payload[16] == 0 || payload[16] > WIRE_MAX_SAMPLES then Rejected(InvalidSampleCount)
    else if |payload| != BATCH_HEADER_SIZE + payload[16] * SAMPLE_WIRE_SIZE then Rejected(InvalidLength)
    else if !ArmMaskIsValid(payload[17]) then Rejected(InvalidArmMask)
    else if ReadU16(payload, 18) != 0 then Rejected(InvalidReserved)
    else if !HeaderKindAgrees(payload, kind) then Rejected(SpliceFieldMismatch)
    else if ReadU32(payload, BATCH_HEADER_SIZE) != 0
         || !NeighboursIncrease(WireSamples(payload, payload[16])) then Rejected(NonMonotonicTick)
    else Ok(Batch(ReadU32(payload, 0), ReadU32(payload, 4), ReadU32(payload, 8), ReadU32(payload, 12),
                  payload[17], WireSamples(payload, payload[16])))
  }

  method ReadVecLoop(payload: seq<u8>, at: nat) returns (pos: Vec)
    requires at + 4 * JOINT_COUNT <= |payload|
    ensures pos == ReadVec(payload, at)
  {
    var joints: seq<i32> := [];
    for j := 0 to JOINT_COUNT
      invariant joints == ReadVec(payload, at)[..j]
    {
      joints := joints + [AsI32(ReadU32(payload, at + 4 * j))];
    }
    pos := joints;
  }

  /** The sample loop of the decoder: sample by sample, joint by joint. */
  method DecodeSamplesLoop(payload: seq<u8>, count: nat) returns (r: Decoded<seq<Setpoint>>)
    requires 0 < count && BATCH_HEADER_SIZE + count * SAMPLE_WIRE_SIZE <= |payload|
    ensures r == if ReadU32(payload, BATCH_HEADER_SIZE) != 0 || !NeighboursIncrease(WireSamples(payload, count))
                 then Rejected(NonMonotonicTick) else Ok(WireSamples(payload, count))
  {
    var first := ReadU32(payload, 0);
    var previousTick: u32 := 0;
    var samples: seq<Setpoint> := [];
    ghost var all := WireSamples(payload, count);
    for i := 0 to count
      invariant samples == all[..i]
      invariant 0 < i ==> previousTick == all[i - 1].tick
      invariant 0 < i ==> ReadU32(payload, BATCH_HEADER_SIZE) == 0
      invariant NeighboursIncrease(samples)
    {
      var offset := BATCH_HEADER_SIZE + i * SAMPLE_WIRE_SIZE;
      var tickOffset := ReadU32(payload, offset);
      var applyTick := Add32(first, tickOffset);
      assert all[i] == WireSample(payload, i) && all[i].tick == applyTick;
      if (0 < i && !TickAfter(applyTick, previousTick)) || (i == 0 && tickOffset != 0) {
        assert 0 < i ==> !NeighboursIncrease(all);
        return Rejected(NonMonotonicTick);
      }
      previousTick := applyTick;
      var pos := ReadVecLoop(payload, offset + 4);
      samples := samples + [Setpoint(applyTick, pos)];
      assert all[..i + 1] == all[..i] + [all[i]];
    }
    assert all[..count] == all;
    r := Ok(samples);
  }

  /** The decoder as the firmware runs it. */
  method DecodeBatchLoop(payload: seq<u8>, kind: Kind) returns (r: Decoded<Batch>)
    ensures r == DecodeBatch(payload, kind)
  {
    if |payload| < BATCH_HEADER_SIZE { return Rejected(InvalidLength); }
    var count: nat := payload[16];
    if count == 0 || count > WIRE_MAX_SAMPLES { return Rejected(InvalidSampleCount); }
    if |payload| != BATCH_HEADER_SIZE + count * SAMPLE_WIRE_SIZE { return Rejected(InvalidLength); }
    if !ArmMaskIsValid(payload[17]) { return Rejected(InvalidArmMask); }
    if ReadU16(payload, 18) != 0 { return Rejected(InvalidReserved); }
    if (kind == Append && ReadU32(payload, 12) != 0) || (kind == Splice && ReadU32(payload, 12) == 0) {
      return Rejected(SpliceFieldMismatch);
    }
    var samples := DecodeSamplesLoop(payload, count);
    if samples.Rejected? { return Rejected(samples.why); }
    r := Ok(Batch(ReadU32(payload, 0), ReadU32(payload, 4), ReadU32(payload, 8), ReadU32(payload, 12),
                  payload[17], samples.value));
  }

  // ---- Policy ----

  predicate JointPolicyOk(policy: Policy, caps: HardCaps, j: nat)
    requires j < JOINT_COUNT
  {
    && 0 < policy.trackingErrorLimit[j] <= caps.trackingErrorLimit[j]
    && 0 < policy.maximumStep[j] <= caps.maximumStep[j]
  }

  function JointPolicyVerdict(policy: Policy, caps: HardCaps, j: nat): ContractResult
    requires j < JOINT_COUNT
  {
    if policy.trackingErrorLimit[j] <= 0 || caps.trackingErrorLimit[j] <= 0
       || policy.trackingErrorLimit[j] > caps.trackingErrorLimit[j] then TrackingErrorTooLarge
    else if policy.maximumStep[j] <= 0 || caps.maximumStep[j] <= 0
            || policy.maximumStep[j] > caps.maximumStep[j] then MaximumStepTooLarge
    else ContractOk
  }

  /** The verdict of the first joint, from j on, that fails. */
  function JointPolicyVerdicts(policy: Policy, caps: HardCaps, j: nat): (r: ContractResult)
    requires j <= JOINT_COUNT
    ensures r == ContractOk <==> forall k :: j <= k < JOINT_COUNT ==> JointPolicyOk(policy, caps, k)
    decreases JOINT_COUNT - j
  {
    if j == JOINT_COUNT then ContractOk
    else if JointPolicyVerdict(policy, caps, j) != ContractOk then
      assert !JointPolicyOk(policy, caps, j);
      JointPolicyVerdict(policy, caps, j)
    else JointPolicyVerdicts(policy, caps, j + 1)
  }

  function ValidatePolicy(policy: Policy, caps: HardCaps, now: u32): ContractResult {
    if !ArmMaskIsValid(policy.armMask) then InvalidArmMask
    else if policy.minimumStartSamples == 0 || policy.minimumStartSamples > QUEUE_CAPACITY then
      InvalidMinimumStartSamples
    else if policy.minimumLeadMs < caps.minimumLeadMs then MinimumLeadTooSmall
    else if policy.maximumLeadMs > caps.maximumLeadMs then MaximumLeadTooLarge
    else if policy.minimumLeadMs > policy.maximumLeadMs then LeadWindowInverted
    else if policy.commandTimeoutMs == 0 || policy.commandTimeoutMs > caps.maximumCommandTimeoutMs then
      CommandTimeoutTooLarge
    else if policy.horizonEndTick == 0 && policy.commandTimeoutMs > caps.maximumOpenCommandTimeoutMs then
      OpenTimeoutTooLarge
    else if policy.maximumApplyLatenessMs > caps.maximumApplyLatenessMs then ApplyLatenessTooLarge
    else if policy.horizonEndTick != 0 && !TickAfter(policy.horizonEndTick, now) then StaleHorizon
    else JointPolicyVerdicts(policy, caps, 0)
  }

  method ValidatePolicyLoop(policy: Policy, caps: HardCaps, now: u32) returns (r: ContractResult)
    ensures r == ValidatePolicy(policy, caps, now)
  {
    if !ArmMaskIsValid(policy.armMask) { return InvalidArmMask; }
    if policy.minimumStartSamples == 0 || policy.minimumStartSamples > QUEUE_CAPACITY {
      return InvalidMinimumStartSamples;
    }
    if policy.minimumLeadMs < caps.minimumLeadMs { return MinimumLeadTooSmall; }
    if policy.maximumLeadMs > caps.maximumLeadMs { return MaximumLeadTooLarge; }
    if policy.minimumLeadMs > policy.maximumLeadMs { return LeadWindowInverted; }
    if policy.commandTimeoutMs == 0 || policy.commandTimeoutMs > caps.maximumCommandTimeoutMs {
      return CommandTimeoutTooLarge;
    }
    if policy.horizonEndTick == 0 && policy.commandTimeoutMs > caps.maximumOpenCommandTimeoutMs {
      return OpenTimeoutTooLarge;
    }
    if policy.maximumApplyLatenessMs > caps.maximumApplyLatenessMs { return ApplyLatenessTooLarge; }
    if policy.horizonEndTick != 0 && !TickAfter(policy.horizonEndTick, now) { return StaleHorizon; }
    for j := 0 to JOINT_COUNT
      invariant JointPolicyVerdicts(policy, caps, 0) == JointPolicyVerdicts(policy, caps, j)
    {
      if policy.trackingErrorLimit[j] <= 0 || caps.trackingErrorLimit[j] <= 0
         || policy.trackingErrorLimit[j] > caps.trackingErrorLimit[j] {
        return TrackingErrorTooLarge;
      }
      if policy.maximumStep[j] <= 0 || caps.maximumStep[j] <= 0
         || policy.maximumStep[j] > caps.maximumStep[j] {
        return MaximumStepTooLarge;
      }
    }
    r := ContractOk;
  }

  // ---- Batch transition ----

  /** `later` may follow `earlier`: a positive whole number of control ticks
      apart, and within the step limit per control tick on every joint. */
  predicate StepAllowed(earlier: Setpoint, later: Setpoint, maximumStep: Vec) {
    var delta := Sub32(later.tick, earlier.tick);
    && delta != 0 && delta % CONTROL_TICK_MS == 0
    && forall j :: 0 <= j < JOINT_COUNT ==>
         AbsDiff(later.pos[j], earlier.pos[j]) <= maximumStep[j] * (delta / CONTROL_TICK_MS)
  }

  /** Every two neighbouring samples are an allowed step. */
  predicate StepsAllowed(samples: seq<Setpoint>, maximumStep: Vec) {
    forall i :: 0 < i < |samples| ==> StepAllowed(samples[i - 1], samples[i], maximumStep)
  }

  /** `a` and `b` are at most one step limit apart on every joint. */
  predicate WithinOneStep(a: Vec, b: Vec, maximumStep: Vec) {
    forall j :: 0 <= j < JOINT_COUNT ==> AbsDiff(a[j], b[j]) <= maximumStep[j]
  }

  function ValidateTransition(
    batch: Batch, kind: Kind, policy: Policy, now: u32, epoch: u32, horizon: u32,
    lastApplyTick: u32, interpolated: Vec): ContractResult
  {
    if !ArmMaskIsValid(batch.armMask) || !MaskWithin(batch.armMask, policy.armMask) then InvalidArmMask
    else if |batch.samples| == 0 || |batch.samples| > WIRE_MAX_SAMPLES then InvalidSampleCount
    else
      var final := batch.samples[|batch.samples| - 1].tick;
      if kind == Append && (!TickAfter(batch.firstApplyTick, now)
                            || Sub32(batch.firstApplyTick, now) < policy.minimumLeadMs) then
        FirstSampleTooEarly
      else if Sub32(final, now) > policy.maximumLeadMs then LastSampleTooLate
      else if batch.horizonEndTick != 0 && TickAfter(final, batch.horizonEndTick) then
        HorizonBeforeLastSample
      else if (horizon == 0) != (batch.horizonEndTick == 0) then HorizonRegression
      else if horizon != 0 && batch.horizonEndTick != horizon
              && !TickAfter(batch.horizonEndTick, horizon) then HorizonRegression
      else if !StepsAllowed(batch.samples, policy.maximumStep) then SampleDiscontinuity
      else if kind == Append then
        if batch.spliceAtTick != 0 then SpliceFieldMismatch
        else if batch.arbiterEpoch != epoch then AppendEpochMismatch
        else if !TickAfter(batch.firstApplyTick, lastApplyTick) then NonMonotonicTick
        else ContractOk
      else if batch.spliceAtTick == 0 then SpliceFieldMismatch
      else if !TickAfter(batch.spliceAtTick, now)
              || Sub32(batch.spliceAtTick, now) < MINIMUM_SPLICE_LEAD_MS
              || Sub32(batch.spliceAtTick, now) < policy.minimumLeadMs then SpliceTooLate
      else if TickAfter(batch.spliceAtTick, lastApplyTick) then SpliceAfterLastSample
      else if batch.samples[0].tick != batch.spliceAtTick then SpliceFirstTickMismatch
      else if !WithinOneStep(batch.samples[0].pos, interpolated, policy.maximumStep) then
        SpliceDiscontinuity
      else ContractOk
  }

  method StepsAllowedLoop(samples: seq<Setpoint>, maximumStep: Vec) returns (ok: bool)
    ensures ok == StepsAllowed(samples, maximumStep)
  {
    var i := 1;
    while i < |samples|
      invariant 1 <= i && (i <= |samples| || |samples| == 0)
      invariant forall k :: 0 < k < i && k < |samples| ==> StepAllowed(samples[k - 1], samples[k], maximumStep)
    {
      var delta := Sub32(samples[i].tick, samples[i - 1].tick);
      if delta == 0 || delta % CONTROL_TICK_MS != 0 { return false; }
      var outputTicks := delta / CONTROL_TICK_MS;
      for j := 0 to JOINT_COUNT
        invariant forall k :: 0 <= k < j ==>
                    AbsDiff(samples[i].pos[k], samples[i - 1].pos[k]) <= maximumStep[k] * outputTicks
      {
        if AbsDiff(samples[i].pos[j], samples[i - 1].pos[j]) > maximumStep[j] * outputTicks {
          assert !StepAllowed(samples[i - 1], samples[i], maximumStep);
          return false;
        }
      }
      i := i + 1;
    }
    ok := true;
  }

  method WithinOneStepLoop(a: Vec, b: Vec, maximumStep: Vec) returns (ok: bool)
    ensures ok == WithinOneStep(a, b, maximumStep)
  {
    for j := 0 to JOINT_COUNT
      invariant forall k :: 0 <= k < j ==> AbsDiff(a[k], b[k]) <= maximumStep[k]
    {
      if AbsDiff(a[j], b[j]) > maximumStep[j] { return false; }
    }
    ok := true;
  }

  method ValidateTransitionLoop(
    batch: Batch, kind: Kind, policy: Policy, now: u32, epoch: u32, horizon: u32,
    lastApplyTick: u32, interpolated: Vec) returns (r: ContractResult)
    ensures r == ValidateTransition(batch, kind, policy, now, epoch, horizon, lastApplyTick, interpolated)
  {
    if !ArmMaskIsValid(batch.armMask) || !MaskWithin(batch.armMask, policy.armMask) {
      return InvalidArmMask;
    }
    if |batch.samples| == 0 || |batch.samples| > WIRE_MAX_SAMPLES { return InvalidSampleCount; }
    var final := batch.samples[|batch.samples| - 1].tick;
    if kind == Append && (!TickAfter(batch.firstApplyTick, now)
                          || Sub32(batch.firstApplyTick, now) < policy.minimumLeadMs) {
      return FirstSampleTooEarly;
    }
    if Sub32(final, now) > policy.maximumLeadMs { return LastSampleTooLate; }
    if batch.horizonEndTick != 0 && TickAfter(final, batch.horizonEndTick) {
      return HorizonBeforeLastSample;
    }
    if (horizon == 0) != (batch.horizonEndTick == 0) { return HorizonRegression; }
    if horizon != 0 && batch.horizonEndTick != horizon && !TickAfter(batch.horizonEndTick, horizon) {
      return HorizonRegression;
    }
    var stepsOk := StepsAllowedLoop(batch.samples, policy.maximumStep);
    if !stepsOk { return SampleDiscontinuity; }
    if kind == Append {
      if batch.spliceAtTick != 0 { return SpliceFieldMismatch; }
      if batch.arbiterEpoch != epoch { return AppendEpochMismatch; }
      if !TickAfter(batch.firstApplyTick, lastApplyTick) { return NonMonotonicTick; }
      return ContractOk;
    }
    if batch.spliceAtTick == 0 { return SpliceFieldMismatch; }
    if !TickAfter(batch.spliceAtTick, now)
       || Sub32(batch.spliceAtTick, now) < MINIMUM_SPLICE_LEAD_MS
       || Sub32(batch.spliceAtTick, now) < policy.minimumLeadMs {
      return SpliceTooLate;
    }
    if TickAfter(batch.spliceAtTick, lastApplyTick) { return SpliceAfterLastSample; }
    if batch.samples[0].tick != batch.spliceAtTick { return SpliceFirstTickMismatch; }
    var continuous := WithinOneStepLoop(batch.samples[0].pos, interpolated, policy.maximumStep);
    r := if continuous then ContractOk else SpliceDiscontinuity;
  }
}
