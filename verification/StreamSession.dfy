/** The validated queue of future setpoints: APPEND extends it, SPLICE cuts it
    at a tick and continues from there. */
module StreamSession {
  import opened Words
  import opened Interpolation
  import opened StreamContract

  datatype Option<+T> = None | Some(value: T)

  const ZERO_VEC: Vec := [0, 0, 0, 0, 0, 0, 0, 0, 0, 0, 0, 0]
  const ZERO_SETPOINT := Setpoint(0, ZERO_VEC)
  const ZERO_POLICY := Policy(0, 0, 0, 0, 0, 0, 0, ZERO_VEC, ZERO_VEC)

  datatype StreamStatus =
    | StatusOk | ContractRejected | NotOpen | QueueOverflow
    | SplicePositionUnavailable | ValidationOnly

  /** What a session remembers; `samples` is the validated queue. */
  datatype Session = Session(
    open: bool, epochEstablished: bool, policy: Policy, arbiterEpoch: u32,
    horizonEndTick: u32, samples: seq<Setpoint>)

  const CLOSED_SESSION := Session(false, false, ZERO_POLICY, 0, 0, [])

  datatype Reply = Reply(
    status: StreamStatus, contract: ContractResult, armMask: u8, arbiterEpoch: u32,
    horizonEndTick: u32, tailTick: u32, count: nat)

  function ReplyFrom(s: Session, status: StreamStatus, contract: ContractResult): Reply {
    Reply(status, contract, if s.open then s.policy.armMask else 0, s.arbiterEpoch, s.horizonEndTick,
          if |s.samples| > 0 then s.samples[|s.samples| - 1].tick else 0, |s.samples|)
  }

  function LerpVec(a: Vec, b: Vec, elapsed: u32, span: u32): Vec
    requires 0 < span
  {
    seq(JOINT_COUNT, j requires 0 <= j < JOINT_COUNT => Lerp(a[j], b[j], elapsed, span))
  }

  /** The queue read as a trajectory, from its i-th sample on. */
  function InterpolateFrom(samples: seq<Setpoint>, tick: u32, i: nat): Option<Vec>
    decreases |samples| - i
  {
    if i >= |samples| then None
    else if samples[i].tick == tick then Some(samples[i].pos)
    else if i + 1 < |samples| && TickAfter(tick, samples[i].tick) && TickAfter(samples[i + 1].tick, tick) then
      Some(LerpVec(samples[i].pos, samples[i + 1].pos,
                   Sub32(tick, samples[i].tick), Sub32(samples[i + 1].tick, samples[i].tick)))
    else InterpolateFrom(samples, tick, i + 1)
  }

  function Interpolate(samples: seq<Setpoint>, tick: u32): Option<Vec> {
    InterpolateFrom(samples, tick, 0)
  }

  /** How many samples from i on come before `tick`, stopping at the first
      that does not. */
  function RetainedFrom(samples: seq<Setpoint>, tick: u32, i: nat): (n: nat)
    requires i <= |samples|
    ensures i <= n <= |samples|
    ensures forall k :: i <= k < n ==> TickAfter(tick, samples[k].tick)
    ensures n < |samples| ==> !TickAfter(tick, samples[n].tick)
    decreases |samples| - i
  {
    if i < |samples| && TickAfter(tick, samples[i].tick) then RetainedFrom(samples, tick, i + 1) else i
  }

  function SessionOpen(s: Session, payload: seq<u8>, caps: HardCaps, now: u32): (Session, Reply) {
    match DecodePolicy(payload)
    case Rejected(why) => (s, ReplyFrom(s, ContractRejected, why))
    case Ok(policy) =>
      var verdict := ValidatePolicy(policy, caps, now);
      if verdict != ContractOk then (s, ReplyFrom(s, ContractRejected, verdict))
      else
        var primed := CLOSED_SESSION.(open := true, policy := policy, horizonEndTick := policy.horizonEndTick);
        (primed, ReplyFrom(primed, ValidationOnly, ContractOk))
  }

  /** The number of queued samples a batch leaves in place. */
  function Kept(s: Session, batch: Batch, kind: Kind): (n: nat)
    ensures n <= |s.samples|
  {
    if kind == Splice then RetainedFrom(s.samples, batch.spliceAtTick, 0) else |s.samples|
  }

  function BatchVerdict(s: Session, batch: Batch, kind: Kind, now: u32, at: Vec): ContractResult {
    ValidateTransition(batch, kind, s.policy, now,
                       if s.epochEstablished then s.arbiterEpoch else batch.arbiterEpoch,
                       s.horizonEndTick,
                       if |s.samples| > 0 then s.samples[|s.samples| - 1].tick else now,
                       at)
  }

  /** A decoded batch meets an open session. */
  function SessionAdmit(s: Session, batch: Batch, kind: Kind, now: u32): (Session, Reply) {
    var at := if kind == Splice then Interpolate(s.samples, batch.spliceAtTick) else Some(ZERO_VEC);
    if at.None? then (s, ReplyFrom(s, SplicePositionUnavailable, ContractOk))
    else
      var verdict := BatchVerdict(s, batch, kind, now, at.value);
      if verdict != ContractOk then (s, ReplyFrom(s, ContractRejected, verdict))
      else
        var kept := Kept(s, batch, kind);
        if kept + |batch.samples| > QUEUE_CAPACITY then (s, ReplyFrom(s, QueueOverflow, ContractOk))
        else
          var next := s.(samples := s.samples[..kept] + batch.samples, epochEstablished := true,
                         arbiterEpoch := batch.arbiterEpoch, horizonEndTick := batch.horizonEndTick);
          (next, ReplyFrom(next, ValidationOnly, ContractOk))
  }

  function SessionBatch(s: Session, payload: seq<u8>, kind: Kind, now: u32): (Session, Reply) {
    if !s.open then (s, ReplyFrom(s, NotOpen, ContractOk))
    else
      match DecodeBatch(payload, kind)
      case Rejected(why) => (s, ReplyFrom(s, ContractRejected, why))
      case Ok(batch) => SessionAdmit(s, batch, kind, now)
  }

  /** The session as the firmware keeps it: a fixed array and a count. */
  class SessionObject {
    const buffer: array<Setpoint>
    var open: bool
    var epochEstablished: bool
    var policy: Policy
    var arbiterEpoch: u32
    var horizonEndTick: u32
    var count: nat

    ghost predicate Valid()
      reads this
    {
      buffer.Length == QUEUE_CAPACITY && count <= QUEUE_CAPACITY
    }

    function Value(): Session
      requires Valid()
      reads this, buffer
    {
      Session(open, epochEstablished, policy, arbiterEpoch, horizonEndTick, buffer[..count])
    }

    constructor ()
      ensures Valid() && fresh(buffer)
      ensures Value() == CLOSED_SESSION
    {
      buffer := new Setpoint[QUEUE_CAPACITY](_ => ZERO_SETPOINT);
      open, epochEstablished, policy, arbiterEpoch, horizonEndTick, count := false, false, ZERO_POLICY, 0, 0, 0;
    }

    /** `interpolate_position`: the first sample or segment that covers `tick`. */
    method InterpolatePosition(tick: u32) returns (r: Option<Vec>)
      requires Valid()
      ensures r == Interpolate(Value().samples, tick)
    {
      ghost var samples := Value().samples;
      for i := 0 to count
        invariant Interpolate(samples, tick) == InterpolateFrom(samples, tick, i)
      {
        if buffer[i].tick == tick { return Some(buffer[i].pos); }
        if i + 1 < count && TickAfter(tick, buffer[i].tick) && TickAfter(buffer[i + 1].tick, tick) {
          var span := Sub32(buffer[i + 1].tick, buffer[i].tick);
          var elapsed := Sub32(tick, buffer[i].tick);
          var output: seq<i32> := [];
          for j := 0 to JOINT_COUNT
            invariant output == LerpVec(samples[i].pos, samples[i + 1].pos, elapsed, span)[..j]
          {
            output := output + [Lerp(buffer[i].pos[j], buffer[i + 1].pos[j], elapsed, span)];
          }
          assert output == LerpVec(samples[i].pos, samples[i + 1].pos, elapsed, span);
          return Some(output);
        }
      }
      r := None;
    }

    method Open(payload: seq<u8>, caps: HardCaps, now: u32) returns (reply: Reply)
      requires Valid()
      modifies this
      ensures Valid()
      ensures (Value(), reply) == SessionOpen(old(Value()), payload, caps, now)
    {
      hide DecodePolicy, ValidatePolicy;
      var decoded := DecodePolicy(payload);
      if decoded.Rejected? { return ReplyFrom(Value(), ContractRejected, decoded.why); }
      var verdict := ValidatePolicyLoop(decoded.value, caps, now);
      if verdict != ContractOk { return ReplyFrom(Value(), ContractRejected, verdict); }
      open, epochEstablished, arbiterEpoch, count := true, false, 0, 0;
      policy, horizonEndTick := decoded.value, decoded.value.horizonEndTick;
      assert buffer[..count] == [];
      reply := ReplyFrom(Value(), ValidationOnly, ContractOk);
    }

    method Batch(payload: seq<u8>, kind: Kind, now: u32) returns (reply: Reply)
      requires Valid()
      modifies this, buffer
      ensures Valid()
      ensures (Value(), reply) == SessionBatch(old(Value()), payload, kind, now)
    {
      hide SessionAdmit, DecodeBatch;
      if !open { return ReplyFrom(Value(), NotOpen, ContractOk); }
      var decoded := DecodeBatchLoop(payload, kind);
      if decoded.Rejected? { return ReplyFrom(Value(), ContractRejected, decoded.why); }
      reply := Admit(decoded.value, kind, now);
    }

    method Admit(batch: StreamContract.Batch, kind: Kind, now: u32) returns (reply: Reply)
      requires Valid()
      modifies this, buffer
      ensures Valid()
      ensures (Value(), reply) == SessionAdmit(old(Value()), batch, kind, now)
    {
      hide BatchVerdict, Interpolate;
      var position := Some(ZERO_VEC);
      if kind == Splice { position := InterpolatePosition(batch.spliceAtTick); }
      if position.None? { return ReplyFrom(Value(), SplicePositionUnavailable, ContractOk); }
      var verdict := Verdict(batch, kind, now, position.value);
      if verdict != ContractOk { return ReplyFrom(Value(), ContractRejected, verdict); }
      var retained := count;
      if kind == Splice { retained := CountBefore(batch.spliceAtTick); }
      if retained + |batch.samples| > QUEUE_CAPACITY {
        return ReplyFrom(Value(), QueueOverflow, ContractOk);
      }
      Store(retained, batch.samples);
      count := retained + |batch.samples|;
      epochEstablished, arbiterEpoch, horizonEndTick := true, batch.arbiterEpoch, batch.horizonEndTick;
      reply := ReplyFrom(Value(), ValidationOnly, ContractOk);
    }

    method Verdict(batch: StreamContract.Batch, kind: Kind, now: u32, at: Vec) returns (r: ContractResult)
      requires Valid()
      ensures r == BatchVerdict(Value(), batch, kind, now, at)
    {
      var currentEpoch := if epochEstablished then arbiterEpoch else batch.arbiterEpoch;
      var lastTick := if count > 0 then buffer[count - 1].tick else now;
      r := ValidateTransitionLoop(batch, kind, policy, now, currentEpoch, horizonEndTick, lastTick, at);
    }

    method CountBefore(tick: u32) returns (n: nat)
      requires Valid()
      ensures n == RetainedFrom(Value().samples, tick, 0)
    {
      ghost var samples := Value().samples;
      n := 0;
      while n < count && TickAfter(tick, buffer[n].tick)
        invariant n <= count
        invariant RetainedFrom(samples, tick, 0) == RetainedFrom(samples, tick, n)
      {
        n := n + 1;
      }
    }

    /** Drop the first sample: the rest moves down one place. */
    method RemoveFirst()
      requires Valid() && count > 0
      modifies this`count, buffer
      ensures Valid() && Value() == old(Value()).(samples := old(Value().samples)[1..])
    {
      ghost var before := buffer[..count];
      for i := 0 to count - 1
        invariant count == old(count)
        invariant forall k :: 0 <= k < i ==> buffer[k] == before[k + 1]
        invariant forall k :: i <= k < count ==> buffer[k] == before[k]
      {
        buffer[i] := buffer[i + 1];
      }
      count := count - 1;
      assert buffer[..count] == before[1..];
    }

    /** Overwrite the buffer from `at` on. */
    method Store(at: nat, samples: seq<Setpoint>)
      requires Valid() && at <= count && at + |samples| <= QUEUE_CAPACITY
      modifies buffer
      ensures buffer[..at + |samples|] == old(buffer[..count])[..at] + samples
    {
      for i := 0 to |samples|
        invariant buffer[..at + i] == old(buffer[..count])[..at] + samples[..i]
      {
        buffer[at + i] := samples[i];
        assert buffer[..at + i + 1] == buffer[..at + i] + [samples[i]];
      }
      assert samples[..|samples|] == samples;
    }
  }
}
