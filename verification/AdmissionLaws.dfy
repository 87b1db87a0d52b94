/** When a batch is admitted, on the bytes it comes in: every condition of the
    decoder, the executor and the session in one place, and what each reason
    for a refusal says about the bytes. */
module AdmissionLaws {
  import opened Words
  import opened StreamContract
  import opened StreamSession
  import opened StreamExecutor
  import opened ExecutorRuns
  import opened Timeline
  import opened PlanRefinement
  import opened ExecutorStory

  // ---- The bytes ----

  function Ahead(tick: u32, of: u32): nat {
    (tick - of) % TWO_32
  }

  /** The tick and the positions of the i-th sample. */
  function TickAt(payload: seq<u8>, i: nat): u32 {
    (Word(payload, 0) + Word(payload, 20 + 52 * i)) % TWO_32
  }

  function PosAt(payload: seq<u8>, i: nat): Vec {
    seq(JOINT_COUNT, j requires 0 <= j < JOINT_COUNT => AsI32(Word(payload, 24 + 52 * i + 4 * j)))
  }

  function SpelledSample(payload: seq<u8>, i: nat): Setpoint {
    Setpoint(TickAt(payload, i), PosAt(payload, i))
  }

  function SpelledSamples(payload: seq<u8>, n: nat): seq<Setpoint> {
    seq(n, i requires 0 <= i < n => SpelledSample(payload, i))
  }

  /** A batch of n samples: its length, a known arm mask, a reserved word that is
      clear, and ticks that increase from the header's. */
  ghost predicate Spelled(payload: seq<u8>, n: nat) {
    && 1 <= n <= 9 && |payload| == 20 + 52 * n && payload[16] as int == n
    && payload[17] in {1, 2, 3} && payload[18] == 0 && payload[19] == 0 && Word(payload, 20) == 0
    && forall i: nat :: 0 < i < n ==> HostTickAfter(TickAt(payload, i), TickAt(payload, i - 1))
  }

  lemma WordIs(payload: seq<u8>, at: nat)
    requires at + 4 <= |payload|
    ensures Word(payload, at) == ReadU32(payload, at)
  {
  }

  lemma SampleIs(payload: seq<u8>, i: nat)
    requires 20 + 52 * (i + 1) <= |payload|
    ensures WireSample(payload, i) == SpelledSample(payload, i)
  {
    hide ReadU32, Word;
    WordIs(payload, 0);
    WordIs(payload, 20 + 52 * i);
    var a, b := ReadU32(payload, 0), ReadU32(payload, 20 + 52 * i);
    SumWraps(a, b);
    forall j | 0 <= j < JOINT_COUNT
      ensures WireSample(payload, i).pos[j] == PosAt(payload, i)[j]
    {
      WordIs(payload, 24 + 52 * i + 4 * j);
    }
    assert WireSample(payload, i).pos == PosAt(payload, i);
  }

  lemma SumWraps(a: u32, b: u32)
    ensures Add32(a, b) == (a + b) % TWO_32
  {
  }

  /** The decoder takes exactly the batches that are spelled as they should be,
      and reads from each what it spells. */
  lemma DecodesWhatIsSpelled(payload: seq<u8>, kind: Kind)
    ensures DecodeBatch(payload, kind).Ok? <==>
              && |payload| > 16 && Spelled(payload, payload[16]) && (kind == Splice <==> Word(payload, 12) != 0)
    ensures DecodeBatch(payload, kind).Ok? ==>
              DecodeBatch(payload, kind).value
              == Batch(Word(payload, 0), Word(payload, 4), Word(payload, 8), Word(payload, 12), payload[17],
                       SpelledSamples(payload, payload[16]))
  {
    hide Word, ReadU32, WireSample, SpelledSample;
    if |payload| > 16 && 1 <= payload[16] <= 9 && |payload| == 20 + 52 * (payload[16] as int) {
      var n: nat := payload[16];
      WordIs(payload, 0);
      WordIs(payload, 4);
      WordIs(payload, 8);
      WordIs(payload, 12);
      WordIs(payload, 20);
      forall i: nat | i < n
        ensures WireSample(payload, i) == SpelledSample(payload, i)
      {
        SampleIs(payload, i);
      }
      assert WireSamples(payload, n) == SpelledSamples(payload, n);
      Neighbours(payload, n);
    }
  }

  lemma Neighbours(payload: seq<u8>, n: nat)
    ensures NeighboursIncrease(SpelledSamples(payload, n)) <==>
              forall i: nat :: 0 < i < n ==> HostTickAfter(TickAt(payload, i), TickAt(payload, i - 1))
  {
    hide TickAfter, HostTickAfter, TickAt, PosAt;
    var samples := SpelledSamples(payload, n);
    forall i: nat | 0 < i < n
      ensures TickAfter(samples[i].tick, samples[i - 1].tick)
         <==> HostTickAfter(TickAt(payload, i), TickAt(payload, i - 1))
    {
      TickOrdersAgree(TickAt(payload, i), TickAt(payload, i - 1));
    }
  }

  // ---- Opening ----

  /** A policy that may be put in force: on the bytes, within the hard caps. */
  ghost predicate OpenTerms(caps: HardCaps, payload: seq<u8>, now: u32) {
    && |payload| == 120 && payload[2] in {1, 2, 3} && payload[3] == 0
    && 1 <= (payload[0] as int) + 256 * (payload[1] as int) <= 16
    && caps.minimumLeadMs <= Word(payload, 4) <= Word(payload, 12) <= caps.maximumLeadMs
    && 0 < Word(payload, 16) <= caps.maximumCommandTimeoutMs
    && (Word(payload, 8) == 0 ==> Word(payload, 16) <= caps.maximumOpenCommandTimeoutMs)
    && Word(payload, 20) <= caps.maximumApplyLatenessMs
    && (Word(payload, 8) != 0 ==> HostTickAfter(Word(payload, 8), now))
    && forall j :: 0 <= j < JOINT_COUNT ==> JointTerms(caps, payload, j)
  }

  /** Each joint's limits are positive and no looser than the caps. */
  ghost predicate JointTerms(caps: HardCaps, payload: seq<u8>, j: nat)
    requires j < JOINT_COUNT
  {
    && 0 < AsI32(Word(payload, 24 + 4 * j)) <= caps.trackingErrorLimit[j]
    && 0 < AsI32(Word(payload, 72 + 4 * j)) <= caps.maximumStep[j]
  }

  lemma ValidPolicyIs(policy: Policy, caps: HardCaps, now: u32)
    ensures ValidatePolicy(policy, caps, now) == ContractOk <==>
              && ArmMaskIsValid(policy.armMask) && 1 <= policy.minimumStartSamples <= 16
              && caps.minimumLeadMs <= policy.minimumLeadMs <= policy.maximumLeadMs <= caps.maximumLeadMs
              && 0 < policy.commandTimeoutMs <= caps.maximumCommandTimeoutMs
              && (policy.horizonEndTick == 0 ==> policy.commandTimeoutMs <= caps.maximumOpenCommandTimeoutMs)
              && policy.maximumApplyLatenessMs <= caps.maximumApplyLatenessMs
              && (policy.horizonEndTick != 0 ==> TickAfter(policy.horizonEndTick, now))
              && forall j :: 0 <= j < JOINT_COUNT ==> JointPolicyOk(policy, caps, j)
  {
    hide TickAfter, JointPolicyOk;
    var joints := JointPolicyVerdicts(policy, caps, 0);
    assert joints == ContractOk <==> forall j :: 0 <= j < JOINT_COUNT ==> JointPolicyOk(policy, caps, j);
  }

  /** An open is accepted exactly when no stream is running and the policy it
      spells may be put in force. The stream then waits, empty, for an epoch. */
  lemma OpenDecides(e: Executor, payload: seq<u8>, now: u32)
    ensures var (after, answer) := ExecOpen(e, payload, now);
            && (answer == BadState <==> e.diag.state == Running)
            && (answer == Done <==> e.diag.state != Running && OpenTerms(e.caps, payload, now))
            && (answer != Done ==> after.diag.state == e.diag.state && after.session == e.session)
            && (answer == Done ==>
                  && after.diag.state == Priming && after.session.samples == [] && !after.session.epochEstablished
                  && after.session.open && after.diag.reason == NoReason && !after.diag.safeStopRequired)
  {
    hide ValidatePolicy, DecodePolicy, Word, HostTickAfter, TermsAre, JointTerms, JointPolicyOk;
    RejectionNamesCause(payload);
    PolicyDecodes(payload);
    if DecodePolicy(payload).Ok? {
      var policy := DecodePolicy(payload).value;
      PolicySpells(payload);
      ValidPolicyIs(policy, e.caps, now);
      TickOrdersAgree(Word(payload, 8), now);
      SpelledJoints(payload, policy, e.caps);
    }
  }

  lemma PolicyDecodes(payload: seq<u8>)
    ensures DecodePolicy(payload).Ok? <==> |payload| == 120 && payload[2] in {1, 2, 3} && payload[3] == 0
  {
  }

  lemma SpelledJoints(payload: seq<u8>, policy: Policy, caps: HardCaps)
    requires TermsAre(payload, policy)
    ensures |payload| == 120 && policy.armMask == payload[2]
    ensures policy.minimumStartSamples == (payload[0] as int) + 256 * (payload[1] as int)
    ensures policy.minimumLeadMs == Word(payload, 4) && policy.maximumLeadMs == Word(payload, 12)
    ensures policy.commandTimeoutMs == Word(payload, 16) && policy.maximumApplyLatenessMs == Word(payload, 20)
    ensures forall j :: 0 <= j < JOINT_COUNT ==>
              (JointPolicyOk(policy, caps, j) <==> JointTerms(caps, payload, j))
  {
    hide Word, AsI32;
  }

  /** What each reason to refuse an open says about its bytes. */
  ghost predicate TrueOpenReason(caps: HardCaps, payload: seq<u8>, now: u32, why: ContractResult) {
    match why
    case InvalidLength => |payload| != 120
    case InvalidArmMask => |payload| == 120 && payload[2] !in {1, 2, 3}
    case InvalidReserved => |payload| == 120 && payload[3] != 0
    case InvalidMinimumStartSamples =>
      |payload| == 120 && !(1 <= (payload[0] as int) + 256 * (payload[1] as int) <= 16)
    case MinimumLeadTooSmall => Word(payload, 4) < caps.minimumLeadMs
    case MaximumLeadTooLarge => Word(payload, 12) > caps.maximumLeadMs
    case LeadWindowInverted => Word(payload, 4) > Word(payload, 12)
    case CommandTimeoutTooLarge => Word(payload, 16) == 0 || Word(payload, 16) > caps.maximumCommandTimeoutMs
    case OpenTimeoutTooLarge => Word(payload, 8) == 0 && Word(payload, 16) > caps.maximumOpenCommandTimeoutMs
    case ApplyLatenessTooLarge => Word(payload, 20) > caps.maximumApplyLatenessMs
    case StaleHorizon => Word(payload, 8) != 0 && !HostTickAfter(Word(payload, 8), now)
    case TrackingErrorTooLarge =>
      exists j :: 0 <= j < JOINT_COUNT && !TrackingOk(caps, payload, j)
    case MaximumStepTooLarge => exists j :: 0 <= j < JOINT_COUNT && !StepOk(caps, payload, j)
    case _ => false
  }

  ghost predicate TrackingOk(caps: HardCaps, payload: seq<u8>, j: nat)
    requires j < JOINT_COUNT
  {
    0 < AsI32(Word(payload, 24 + 4 * j)) <= caps.trackingErrorLimit[j]
  }

  ghost predicate StepOk(caps: HardCaps, payload: seq<u8>, j: nat)
    requires j < JOINT_COUNT
  {
    0 < AsI32(Word(payload, 72 + 4 * j)) <= caps.maximumStep[j]
  }

  lemma {:induction false} JointReason(payload: seq<u8>, policy: Policy, caps: HardCaps, j: nat)
    requires TermsAre(payload, policy) && j <= JOINT_COUNT
    ensures var why := JointPolicyVerdicts(policy, caps, j);
            && why in {ContractOk, TrackingErrorTooLarge, MaximumStepTooLarge}
            && (why == TrackingErrorTooLarge ==> exists k :: 0 <= k < JOINT_COUNT && !TrackingOk(caps, payload, k))
            && (why == MaximumStepTooLarge ==> exists k :: 0 <= k < JOINT_COUNT && !StepOk(caps, payload, k))
    decreases JOINT_COUNT - j
  {
    hide Word, AsI32;
    if j < JOINT_COUNT {
      JointReason(payload, policy, caps, j + 1);
      assert JointPolicyVerdict(policy, caps, j) == TrackingErrorTooLarge ==> !TrackingOk(caps, payload, j);
      assert JointPolicyVerdict(policy, caps, j) == MaximumStepTooLarge ==> !StepOk(caps, payload, j);
    }
  }

  /** An open that is refused is refused for a reason that is true of its bytes. */
  lemma OpenReasons(e: Executor, payload: seq<u8>, now: u32)
    requires ExecOpen(e, payload, now).1 == PayloadRejected
    ensures TrueOpenReason(e.caps, payload, now, ExecOpen(e, payload, now).0.diag.lastContract)
  {
    hide Word, HostTickAfter, TermsAre, JointPolicyVerdicts;
    PolicyDecodes(payload);
    if DecodePolicy(payload).Ok? {
      var policy := DecodePolicy(payload).value;
      PolicySpells(payload);
      SpelledJoints(payload, policy, e.caps);
      JointReason(payload, policy, e.caps, 0);
      TickOrdersAgree(Word(payload, 8), now);
    }
  }

  // ---- The conditions ----

  /** `to` may follow `from`: a positive whole number of control ticks later, and
      within the step limit per control tick. */
  ghost predicate Follow(from: Setpoint, to: Setpoint, policy: Policy) {
    var d := Ahead(to.tick, from.tick);
    && 0 < d && d % 5 == 0
    && forall j :: 0 <= j < JOINT_COUNT ==>
         -(policy.maximumStep[j] * (d / 5)) <= to.pos[j] - from.pos[j] <= policy.maximumStep[j] * (d / 5)
  }

  /** The horizon a batch bears, against the stream's and its own last tick. */
  ghost predicate HorizonAgrees(horizon: u32, borne: u32, last: u32) {
    && (horizon == 0 <==> borne == 0)
    && (borne != 0 ==> !HostTickAfter(last, borne))
    && (horizon != 0 ==> borne == horizon || HostTickAfter(borne, horizon))
  }

  ghost predicate ArmsAgreed(mask: u8, agreed: u8) {
    && (mask % 2 == 1 ==> agreed % 2 == 1) && (mask / 2 % 2 == 1 ==> agreed / 2 % 2 == 1)
  }

  /** What every batch must meet. */
  ghost predicate CommonTerms(e: Executor, payload: seq<u8>, n: nat, now: u32)
    requires 0 < n
  {
    var s, samples := e.session, SpelledSamples(payload, n);
    var last := samples[n - 1].tick;
    && e.diag.state in {Priming, Running} && s.open && Spelled(payload, n)
    && ArmsAgreed(payload[17], s.policy.armMask)
    && Ahead(last, now) <= s.policy.maximumLeadMs
    && HorizonAgrees(s.horizonEndTick, Word(payload, 4), last)
    && (forall i :: 0 < i < n ==> Follow(samples[i - 1], samples[i], s.policy))
    && (forall i :: 0 <= i < n ==> WithinLimits(e.limits, samples[i].pos))
  }

  /** What an append must meet besides. */
  ghost predicate AppendTerms(e: Executor, payload: seq<u8>, n: nat, now: u32)
    requires 0 < n
  {
    var s, first := e.session, SpelledSample(payload, 0);
    && CommonTerms(e, payload, n, now) && Word(payload, 12) == 0
    && HostTickAfter(first.tick, now) && Ahead(first.tick, now) >= s.policy.minimumLeadMs
    && (s.epochEstablished ==> Word(payload, 8) == s.arbiterEpoch)
    && (s.samples != [] ==>
          var tail := s.samples[|s.samples| - 1];
          HostTickAfter(first.tick, tail.tick) && Follow(tail, first, s.policy))
    && |s.samples| + n <= 16
  }

  lemma AheadIs(tick: u32, of: u32)
    ensures Ahead(tick, of) == Sub32(tick, of)
  {
  }

  lemma FollowIs(from: Setpoint, to: Setpoint, policy: Policy)
    ensures Follow(from, to, policy) <==> StepAllowed(from, to, policy.maximumStep)
  {
    AheadIs(to.tick, from.tick);
  }

  lemma HorizonIs(horizon: u32, borne: u32, last: u32)
    ensures HorizonAgrees(horizon, borne, last) <==>
              && (horizon == 0) == (borne == 0)
              && !(borne != 0 && TickAfter(last, borne))
              && !(horizon != 0 && borne != horizon && !TickAfter(borne, horizon))
  {
    TickOrdersAgree(last, borne);
    TickOrdersAgree(borne, horizon);
  }

  lemma ArmsAre(mask: u8, agreed: u8)
    ensures ArmsAgreed(mask, agreed) <==> MaskWithin(mask, agreed)
  {
  }

  lemma CrossIs(tail: Setpoint, b: Batch, policy: Policy)
    requires |b.samples| > 0 && b.samples[0].tick == b.firstApplyTick
    requires TickAfter(b.firstApplyTick, tail.tick)
    ensures CrossBatchOk(tail, b, policy.maximumStep) <==> Follow(tail, b.samples[0], policy)
  {
    FollowIs(tail, b.samples[0], policy);
  }

  /** The checks common to both kinds, as the contract makes them. */
  ghost predicate CommonVerdict(b: Batch, s: Session, now: u32)
    requires |b.samples| > 0
  {
    var final := b.samples[|b.samples| - 1].tick;
    && ArmMaskIsValid(b.armMask) && MaskWithin(b.armMask, s.policy.armMask)
    && Sub32(final, now) <= s.policy.maximumLeadMs
    && HorizonAgrees(s.horizonEndTick, b.horizonEndTick, final)
    && StepsAllowed(b.samples, s.policy.maximumStep)
  }

  lemma AppendVerdictIs(s: Session, b: Batch, now: u32, at: Vec)
    requires 0 < |b.samples| <= 9
    ensures BatchVerdict(s, b, Append, now, at) == ContractOk <==>
              && CommonVerdict(b, s, now) && b.spliceAtTick == 0
              && TickAfter(b.firstApplyTick, now) && Sub32(b.firstApplyTick, now) >= s.policy.minimumLeadMs
              && (s.epochEstablished ==> b.arbiterEpoch == s.arbiterEpoch)
              && TickAfter(b.firstApplyTick, if s.samples == [] then now else s.samples[|s.samples| - 1].tick)
  {
    hide StepsAllowed, TickAfter, Sub32, MaskWithin, HorizonAgrees;
    HorizonIs(s.horizonEndTick, b.horizonEndTick, b.samples[|b.samples| - 1].tick);
  }

  lemma AppendCommits(e: Executor, b: Batch, now: u32)
    requires 0 < |b.samples| <= 9
    ensures ExecAdmitBatch(e, b, Append, now).1 == Done <==>
              && BatchWithinLimits(e.limits, b.samples) && e.session.open
              && (e.session.samples != [] ==>
                    CrossBatchOk(e.session.samples[|e.session.samples| - 1], b, e.session.policy.maximumStep))
              && BatchVerdict(e.session, b, Append, now, ZERO_VEC) == ContractOk
              && |e.session.samples| + |b.samples| <= QUEUE_CAPACITY
  {
    hide BatchVerdict, CrossBatchOk, BatchWithinLimits;
  }

  /** What a spelled batch is worth against the session. */
  lemma CommonIs(e: Executor, payload: seq<u8>, kind: Kind, now: u32)
    requires e.diag.state in {Priming, Running} && e.session.open && DecodeBatch(payload, kind).Ok?
    ensures |payload| > 16 && payload[16] > 0
    ensures var b := DecodeBatch(payload, kind).value;
            |b.samples| > 0
            && (CommonTerms(e, payload, payload[16], now)
                <==> CommonVerdict(b, e.session, now) && BatchWithinLimits(e.limits, b.samples))
  {
    hide DecodeBatch, TickAfter, Sub32, Word, StepAllowed, WithinLimits, Follow, MaskWithin, HorizonAgrees, Ahead,
         SpelledSample, ArmsAgreed;
    DecodesWhatIsSpelled(payload, kind);
    var n: nat, samples := payload[16], DecodeBatch(payload, kind).value.samples;
    AheadIs(samples[n - 1].tick, now);
    ArmsAre(payload[17], e.session.policy.armMask);
    forall i | 0 < i < n
      ensures Follow(samples[i - 1], samples[i], e.session.policy)
         <==> StepAllowed(samples[i - 1], samples[i], e.session.policy.maximumStep)
    {
      FollowIs(samples[i - 1], samples[i], e.session.policy);
    }
  }

  /** An append is admitted exactly under these terms. */
  lemma AppendDecides(e: Executor, payload: seq<u8>, now: u32)
    requires e.diag.state in {Priming, Running} ==> e.session.open
    ensures ExecAdmit(e, payload, Append, now).1 == Done <==>
              |payload| > 16 && payload[16] > 0 && AppendTerms(e, payload, payload[16], now)
  {
    hide DecodeBatch, TickAfter, Sub32, Word, Follow, CommonTerms, CommonVerdict, HostTickAfter, Ahead, CrossBatchOk,
         ExecAdmitBatch, BatchVerdict, BatchWithinLimits;
    DecodesWhatIsSpelled(payload, Append);
    CommonNeeds(e, payload, now);
    if e.diag.state in {Priming, Running} && DecodeBatch(payload, Append).Ok? {
      var s, b, first := e.session, DecodeBatch(payload, Append).value, SpelledSample(payload, 0);
      var last := if s.samples == [] then now else s.samples[|s.samples| - 1].tick;
      DecodedBatch(payload, Append);
      CommonIs(e, payload, Append, now);
      AppendVerdictIs(s, b, now, ZERO_VEC);
      AppendCommits(e, b, now);
      TickOrdersAgree(first.tick, now);
      TickOrdersAgree(first.tick, last);
      AheadIs(first.tick, now);
      if s.samples != [] && TickAfter(first.tick, last) {
        CrossIs(s.samples[|s.samples| - 1], b, s.policy);
      }
    }
  }

  lemma CommonNeeds(e: Executor, payload: seq<u8>, now: u32)
    ensures |payload| > 16 && payload[16] > 0 && CommonTerms(e, payload, payload[16], now) ==>
              e.diag.state in {Priming, Running} && Spelled(payload, payload[16])
  {
  }

  // ---- Splices ----

  /** `v` is where the queue, read as a trajectory, is at `tick`: a sample there,
      or the point of the line around it. */
  ghost predicate OnTrajectory(o: u32, queue: seq<Setpoint>, tick: u32, v: Vec) {
    exists i :: 0 <= i < |queue| && PassesAt(o, queue, i, tick, v)
  }

  ghost predicate PassesAt(o: u32, queue: seq<Setpoint>, i: nat, tick: u32, v: Vec)
    requires i < |queue|
  {
    || (queue[i].tick == tick && v == queue[i].pos)
    || (&& i + 1 < |queue| && Since(o, queue[i].tick) < Since(o, tick) < Since(o, queue[i + 1].tick)
        && OnTheWay(o, queue[i], queue[i + 1], tick, v))
  }

  lemma OnlyOneOnTheWay(o: u32, from: Setpoint, next: Setpoint, now: u32, v: Vec, w: Vec)
    requires OnTheWay(o, from, next, now, v) && OnTheWay(o, from, next, now, w)
    ensures v == w
  {
  }

  /** The session's interpolator is that trajectory. */
  lemma InterpolateIsTrajectory(o: u32, queue: seq<Setpoint>, tick: u32, v: Vec)
    requires Ordered(o, queue) && Since(o, tick) < TWO_31
    ensures Interpolate(queue, tick) == Some(v) <==> OnTrajectory(o, queue, tick, v)
  {
    hide OnTheWay, Interpolate, LerpVec;
    InterpolateAnswers(o, queue, tick);
    if Interpolate(queue, tick).Some? {
      var i := CoverExists(o, queue, tick, |queue|);
      Passing(o, queue, i, tick);
    }
    if OnTrajectory(o, queue, tick, v) {
      var i :| 0 <= i < |queue| && PassesAt(o, queue, i, tick, v);
      Passing(o, queue, i, tick);
      if queue[i].tick != tick {
        OnlyOneOnTheWay(o, queue[i], queue[i + 1], tick, v, Interpolate(queue, tick).value);
      }
    }
  }

  lemma Passing(o: u32, queue: seq<Setpoint>, i: nat, tick: u32)
    requires Ordered(o, queue) && Since(o, tick) < TWO_31 && Covers(o, queue, i, tick)
    ensures Interpolate(queue, tick).Some? && PassesAt(o, queue, i, tick, Interpolate(queue, tick).value)
  {
    hide OnTheWay, LerpVec;
    ScanFinds(o, queue, i, tick, 0);
    if queue[i].tick != tick {
      LerpOnTheWay(o, queue[i], queue[i + 1], tick);
    }
  }

  ghost predicate NearPoint(at: Vec, pos: Vec, policy: Policy) {
    forall j :: 0 <= j < JOINT_COUNT ==> 
      -(policy.maximumStep[j] as int) <= pos[j] as int - at[j] <= policy.maximumStep[j]
  }

  /** What a splice must meet besides. */
  ghost predicate SpliceTerms(o: u32, e: Executor, payload: seq<u8>, n: nat, now: u32)
    requires 0 < n
  {
    var s, first, cut := e.session, SpelledSample(payload, 0), Word(payload, 12);
    && CommonTerms(e, payload, n, now) && cut != 0 && first.tick == cut
    && HostTickAfter(cut, now) && Ahead(cut, now) >= 20 && Ahead(cut, now) >= s.policy.minimumLeadMs
    && (exists at :: OnTrajectory(o, s.samples, cut, at) && NearPoint(at, first.pos, s.policy))
    && |Before(s.samples, cut)| + n <= 16
  }

  lemma SpliceVerdictIs(s: Session, b: Batch, now: u32, at: Vec)
    requires 0 < |b.samples| <= 9 && s.samples != []
    ensures BatchVerdict(s, b, Splice, now, at) == ContractOk <==>
              && CommonVerdict(b, s, now) && b.spliceAtTick != 0 && b.samples[0].tick == b.spliceAtTick
              && TickAfter(b.spliceAtTick, now) && Sub32(b.spliceAtTick, now) >= 20
              && Sub32(b.spliceAtTick, now) >= s.policy.minimumLeadMs
              && !TickAfter(b.spliceAtTick, s.samples[|s.samples| - 1].tick)
              && WithinOneStep(b.samples[0].pos, at, s.policy.maximumStep)
  {
    hide StepsAllowed, TickAfter, Sub32, MaskWithin, HorizonAgrees, WithinOneStep;
    HorizonIs(s.horizonEndTick, b.horizonEndTick, b.samples[|b.samples| - 1].tick);
  }

  lemma SpliceCommits(e: Executor, b: Batch, now: u32)
    requires 0 < |b.samples| <= 9
    ensures ExecAdmitBatch(e, b, Splice, now).1 == Done <==>
              var at := Interpolate(e.session.samples, b.spliceAtTick);
              && BatchWithinLimits(e.limits, b.samples) && e.session.open && at.Some?
              && BatchVerdict(e.session, b, Splice, now, at.value) == ContractOk
              && RetainedFrom(e.session.samples, b.spliceAtTick, 0) + |b.samples| <= QUEUE_CAPACITY
  {
    hide BatchVerdict, CrossBatchOk, BatchWithinLimits, Interpolate;
  }

  lemma NearIs(at: Vec, pos: Vec, policy: Policy)
    ensures NearPoint(at, pos, policy) <==> WithinOneStep(pos, at, policy.maximumStep)
  {
  }

  /** A trajectory ends at its tail. */
  lemma TrajectoryEnds(o: u32, queue: seq<Setpoint>, tick: u32)
    requires Ordered(o, queue) && Since(o, tick) < TWO_31 && Interpolate(queue, tick).Some?
    ensures queue != [] && !TickAfter(tick, queue[|queue| - 1].tick)
  {
    hide Interpolate;
    InterpolateAnswers(o, queue, tick);
    HalfWindow(o, tick, queue[|queue| - 1].tick);
  }

  lemma BeforeCount(o: u32, queue: seq<Setpoint>, tick: u32)
    requires Ordered(o, queue) && Since(o, tick) < TWO_31
    ensures |Before(queue, tick)| == RetainedFrom(queue, tick, 0)
  {
    BeforeIsRetained(o, queue, tick);
  }

  /** A splice into an ordered queue is admitted exactly under these terms. */
  lemma SpliceDecides(o: u32, e: Executor, payload: seq<u8>, now: u32)
    requires e.diag.state in {Priming, Running} ==> e.session.open
    requires Ordered(o, e.session.samples) && Since(o, Word(payload, 12)) < TWO_31
    ensures ExecAdmit(e, payload, Splice, now).1 == Done <==>
              |payload| > 16 && payload[16] > 0 && SpliceTerms(o, e, payload, payload[16], now)
  {
    hide DecodeBatch, TickAfter, Sub32, Word, CommonTerms, CommonVerdict, HostTickAfter, Ahead, Ordered, NearPoint,
         ExecAdmitBatch, BatchVerdict, BatchWithinLimits, WithinOneStep, OnTrajectory, Interpolate, Before, Since;
    DecodesWhatIsSpelled(payload, Splice);
    CommonNeeds(e, payload, now);
    if e.diag.state in {Priming, Running} && DecodeBatch(payload, Splice).Ok? {
      var s, b, cut := e.session, DecodeBatch(payload, Splice).value, Word(payload, 12);
      DecodedBatch(payload, Splice);
      CommonIs(e, payload, Splice, now);
      SpliceCommits(e, b, now);
      BeforeCount(o, s.samples, cut);
      TickOrdersAgree(cut, now);
      AheadIs(cut, now);
      if Interpolate(s.samples, cut).Some? {
        var at := Interpolate(s.samples, cut).value;
        TrajectoryEnds(o, s.samples, cut);
        SpliceVerdictIs(s, b, now, at);
        InterpolateIsTrajectory(o, s.samples, cut, at);
        NearIs(at, b.samples[0].pos, s.policy);
      }
      forall at | OnTrajectory(o, s.samples, cut, at)
        ensures Interpolate(s.samples, cut) == Some(at)
      {
        InterpolateIsTrajectory(o, s.samples, cut, at);
      }
    }
  }

  // ---- Refusals ----

  ghost predicate Disordered(samples: seq<Setpoint>) {
    exists i :: 0 < i < |samples| && !HostTickAfter(samples[i].tick, samples[i - 1].tick)
  }

  ghost predicate Discontinuous(samples: seq<Setpoint>, policy: Policy) {
    exists i :: 0 < i < |samples| && !Follow(samples[i - 1], samples[i], policy)
  }

  lemma DisorderedIs(samples: seq<Setpoint>)
    ensures Disordered(samples) <==> !NeighboursIncrease(samples)
  {
    hide TickAfter, HostTickAfter;
    forall i | 0 < i < |samples|
      ensures TickAfter(samples[i].tick, samples[i - 1].tick) <==> HostTickAfter(samples[i].tick, samples[i - 1].tick)
    {
      TickOrdersAgree(samples[i].tick, samples[i - 1].tick);
    }
  }

  lemma DiscontinuousIs(samples: seq<Setpoint>, policy: Policy)
    ensures Discontinuous(samples, policy) <==> !StepsAllowed(samples, policy.maximumStep)
  {
    hide StepAllowed, Follow;
    forall i | 0 < i < |samples|
      ensures StepAllowed(samples[i - 1], samples[i], policy.maximumStep)
          <==> Follow(samples[i - 1], samples[i], policy)
    {
      FollowIs(samples[i - 1], samples[i], policy);
    }
  }

  /** What each reason the session gives says about the bytes and the stream. */
  ghost predicate TrueReason(s: Session, payload: seq<u8>, kind: Kind, now: u32, why: ContractResult) {
    var n: nat := if |payload| > 16 then payload[16] else 0;
    var samples := SpelledSamples(payload, n);
    var cut := Word(payload, 12);
    match why
    case ContractOk => true
    case InvalidLength => |payload| < 20 || |payload| != 20 + 52 * n
    case InvalidSampleCount => |payload| >= 20 && !(1 <= n <= 9)
    case InvalidArmMask =>
      |payload| >= 20 && (payload[17] !in {1, 2, 3} || !ArmsAgreed(payload[17], s.policy.armMask))
    case InvalidReserved => |payload| >= 20 && (payload[18] != 0 || payload[19] != 0)
    case SpliceFieldMismatch => !(kind == Splice <==> cut != 0)
    case NonMonotonicTick =>
      || Word(payload, 20) != 0
      || Disordered(samples)
      || (n > 0 && kind == Append
          && !HostTickAfter(samples[0].tick, if s.samples == [] then now else s.samples[|s.samples| - 1].tick))
    case FirstSampleTooEarly =>
      n > 0 && kind == Append
      && (!HostTickAfter(samples[0].tick, now) || Ahead(samples[0].tick, now) < s.policy.minimumLeadMs)
    case LastSampleTooLate => n > 0 && Ahead(samples[n - 1].tick, now) > s.policy.maximumLeadMs
    case HorizonBeforeLastSample =>
      n > 0 && Word(payload, 4) != 0 && HostTickAfter(samples[n - 1].tick, Word(payload, 4))
    case HorizonRegression =>
      || (s.horizonEndTick == 0) != (Word(payload, 4) == 0)
      || (Word(payload, 4) != s.horizonEndTick && !HostTickAfter(Word(payload, 4), s.horizonEndTick))
    case SampleDiscontinuity => Discontinuous(samples, s.policy)
    case AppendEpochMismatch => kind == Append && s.epochEstablished && Word(payload, 8) != s.arbiterEpoch
    case SpliceTooLate =>
      kind == Splice
      && (!HostTickAfter(cut, now) || Ahead(cut, now) < 20 || Ahead(cut, now) < s.policy.minimumLeadMs)
    case SpliceAfterLastSample =>
      kind == Splice && HostTickAfter(cut, if s.samples == [] then now else s.samples[|s.samples| - 1].tick)
    case SpliceFirstTickMismatch => kind == Splice && n > 0 && samples[0].tick != cut
    case SpliceDiscontinuity =>
      && kind == Splice && n > 0 && Interpolate(s.samples, cut).Some?
      && !NearPoint(Interpolate(s.samples, cut).value, samples[0].pos, s.policy)
    case _ => false
  }

  lemma DecodeReason(s: Session, payload: seq<u8>, kind: Kind, now: u32)
    requires DecodeBatch(payload, kind).Rejected?
    ensures DecodeBatch(payload, kind).why != ContractOk
    ensures TrueReason(s, payload, kind, now, DecodeBatch(payload, kind).why)
  {
    hide Word, ReadU32, WireSample, SpelledSample, Follow, HorizonAgrees, Interpolate, HostTickAfter, Ahead,
         NeighboursIncrease, Disordered;
    if |payload| >= 20 && 1 <= payload[16] <= 9 && |payload| == 20 + 52 * (payload[16] as int) {
      var n: nat := payload[16];
      WordIs(payload, 12);
      WordIs(payload, 20);
      forall i: nat | i < n
        ensures WireSample(payload, i) == SpelledSample(payload, i)
      {
        SampleIs(payload, i);
      }
      assert WireSamples(payload, n) == SpelledSamples(payload, n);
      DisorderedIs(SpelledSamples(payload, n));
    }
  }

  lemma VerdictReason(s: Session, payload: seq<u8>, kind: Kind, now: u32, at: Vec)
    requires DecodeBatch(payload, kind).Ok?
    requires kind == Splice ==> Interpolate(s.samples, Word(payload, 12)) == Some(at)
    ensures TrueReason(s, payload, kind, now, BatchVerdict(s, DecodeBatch(payload, kind).value, kind, now, at))
  {
    hide Word, DecodeBatch, SpelledSample, Follow, Interpolate, HostTickAfter, TickAfter, Sub32, Ahead, NearPoint,
         WithinOneStep, MaskWithin, ArmsAgreed, StepsAllowed, Discontinuous;
    DecodesWhatIsSpelled(payload, kind);
    DecodedBatch(payload, kind);
    var n: nat, b, cut := payload[16], DecodeBatch(payload, kind).value, Word(payload, 12);
    var last, tail := b.samples[n - 1].tick, if s.samples == [] then now else s.samples[|s.samples| - 1].tick;
    ArmsAre(payload[17], s.policy.armMask);
    AheadIs(b.firstApplyTick, now);
    AheadIs(last, now);
    AheadIs(cut, now);
    TickOrdersAgree(b.firstApplyTick, now);
    TickOrdersAgree(b.firstApplyTick, tail);
    TickOrdersAgree(cut, now);
    TickOrdersAgree(cut, tail);
    TickOrdersAgree(last, b.horizonEndTick);
    TickOrdersAgree(b.horizonEndTick, s.horizonEndTick);
    NearIs(at, b.samples[0].pos, s.policy);
    DiscontinuousIs(b.samples, s.policy);
  }

  /** Whatever an open session answers to a batch, its reason is true of the
      bytes: the field, the lead, the horizon, the epoch, the step or the splice
      it names is wrong; and it says that there is no room, or no position to
      splice at, only when that is so. */
  lemma ReasonsAreTrue(s: Session, payload: seq<u8>, kind: Kind, now: u32)
    requires s.open
    ensures var reply := SessionBatch(s, payload, kind, now).1;
            && TrueReason(s, payload, kind, now, reply.contract)
            && reply.status in {ContractRejected, SplicePositionUnavailable, QueueOverflow, ValidationOnly}
            && (reply.status == ContractRejected <==> reply.contract != ContractOk)
            && (reply.status == SplicePositionUnavailable ==>
                  kind == Splice && Interpolate(s.samples, Word(payload, 12)).None?)
            && (reply.status == QueueOverflow ==>
                  && |payload| > 16
                  && (if kind == Splice then RetainedFrom(s.samples, Word(payload, 12), 0) else |s.samples|)
                     + payload[16] > 16)
  {
    hide Word, DecodeBatch, SpelledSample, Interpolate, TrueReason, BatchVerdict, Spelled;
    TruthOfOk(s, payload, kind, now);
    if DecodeBatch(payload, kind).Rejected? {
      DecodeReason(s, payload, kind, now);
    } else {
      DecodesWhatIsSpelled(payload, kind);
      var at := if kind == Splice then Interpolate(s.samples, Word(payload, 12)) else Some(ZERO_VEC);
      if at.Some? {
        VerdictReason(s, payload, kind, now, at.value);
      }
    }
  }

  lemma TruthOfOk(s: Session, payload: seq<u8>, kind: Kind, now: u32)
    ensures TrueReason(s, payload, kind, now, ContractOk)
  {
  }

  /** A sample outside the executor's limits. */
  ghost predicate OutsideLimits(limits: Limits, samples: seq<Setpoint>) {
    exists i :: 0 <= i < |samples| && !WithinLimits(limits, samples[i].pos)
  }

  /** The executor's own cross-batch check: an append after the tail that no
      allowed step leads to. */
  ghost predicate LeapsFromTail(s: Session, payload: seq<u8>) {
    && s.samples != []
    && var tail, first := s.samples[|s.samples| - 1], SpelledSample(payload, 0);
       HostTickAfter(first.tick, tail.tick) && !Follow(tail, first, s.policy)
  }

  /** What a batch is answered when it is not admitted, and why: no stream takes
      batches; the bytes do not spell a batch; a sample lies outside the limits;
      or the contract, the session or the step from the tail refuses, and the
      reason recorded is true. */
  lemma AdmitAnswers(e: Executor, payload: seq<u8>, kind: Kind, now: u32)
    requires e.diag.state in {Priming, Running} ==> e.session.open
    ensures var (after, answer) := ExecAdmit(e, payload, kind, now);
            var spelled := |payload| > 16 && Spelled(payload, payload[16])
                && (kind == Splice <==> Word(payload, 12) != 0);
            && (answer == BadState <==> e.diag.state !in {Priming, Running})
            && (answer == PayloadRejected <==> e.diag.state in {Priming, Running} && !spelled)
            && (answer == JointLimitRejected <==>
                  && e.diag.state in {Priming, Running} && spelled
                  && OutsideLimits(e.limits, SpelledSamples(payload, payload[16])))
            && (answer == PayloadRejected ==> TrueReason(e.session, payload, kind, now, after.diag.lastContract))
            && (answer == BatchRejected ==>
                  || TrueReason(e.session, payload, kind, now, after.diag.lastContract)
                  || (after.diag.lastContract == SampleDiscontinuity && kind == Append
                       && LeapsFromTail(e.session, payload)))
            && answer in {BadState, PayloadRejected, JointLimitRejected, BatchRejected, Done}
  {
    hide DecodeBatch, Word, TrueReason, ExecCommit, Spelled, WithinLimits, CrossBatchOk, Follow, HostTickAfter;
    DecodesWhatIsSpelled(payload, kind);
    if DecodeBatch(payload, kind).Rejected? {
      DecodeReason(e.session, payload, kind, now);
    } else if e.diag.state in {Priming, Running} {
      var b, queue := DecodeBatch(payload, kind).value, e.session.samples;
      DecodedBatch(payload, kind);
      CommitReason(e, payload, kind, now);
      if queue != [] {
        Leaps(e.session, payload, b);
      }
    }
  }

  lemma Leaps(s: Session, payload: seq<u8>, b: Batch)
    requires s.samples != [] && |b.samples| > 0 && b.samples[0] == SpelledSample(payload, 0)
    requires b.firstApplyTick == b.samples[0].tick
    ensures !CrossBatchOk(s.samples[|s.samples| - 1], b, s.policy.maximumStep) ==> LeapsFromTail(s, payload)
  {
    hide Follow, HostTickAfter, TickAfter;
    var tail := s.samples[|s.samples| - 1];
    TickOrdersAgree(b.firstApplyTick, tail.tick);
    if TickAfter(b.firstApplyTick, tail.tick) {
      CrossIs(tail, b, s.policy);
    }
  }

  lemma CommitReason(e: Executor, payload: seq<u8>, kind: Kind, now: u32)
    requires DecodeBatch(payload, kind).Ok? && e.session.open
    ensures 0 < |DecodeBatch(payload, kind).value.samples| <= 9
    ensures var (after, answer) := ExecCommit(e, DecodeBatch(payload, kind).value, kind, now);
            && answer in {BatchRejected, Done}
            && (answer == BatchRejected ==> TrueReason(e.session, payload, kind, now, after.diag.lastContract))
  {
    hide DecodeBatch, TrueReason, SessionAdmit, Word;
    DecodedBatch(payload, kind);
    ReasonsAreTrue(e.session, payload, kind, now);
  }
}
