/** The buffered executor as the firmware keeps it: a ring and a diagnostics
    record updated in place, every operation tied to its function. */
module BufferedExecutorObject {
  import opened Words
  import opened Interpolation
  import opened StreamSession
  import opened SetpointQueue
  import opened BufferedExecutor

  class Executor {
    const queue: SetpointRing
    const minimumStart: nat
    const allowedLateness: u32
    var anchor: Sample
    var diag: Diag
    var anchorValid: bool

    ghost predicate Valid()
      reads this, queue
    {
      queue.Valid()
    }

    function Value(): Exec
      requires Valid()
      reads this, queue, queue.samples
    {
      Exec(queue.Contents(), anchor, diag, minimumStart, allowedLateness, anchorValid)
    }

    constructor (minimumStart: nat, allowedLateness: u32)
      requires Init(minimumStart, allowedLateness).Some?
      ensures Valid() && fresh(queue) && fresh(queue.samples)
      ensures Some(Value()) == Init(minimumStart, allowedLateness)
    {
      this.minimumStart, this.allowedLateness := minimumStart, allowedLateness;
      queue := new SetpointRing();
      anchor, diag, anchorValid := ZERO_SAMPLE, FRESH, false;
    }

    /** `transition_terminal`. */
    method End(state: State, reason: Reason, safeStop: bool, now: u32)
      requires Valid()
      modifies this, queue
      ensures Valid() && Value() == Ended(old(Value()), state, reason, safeStop, now)
    {
      queue.Clear();
      diag := diag.(state := state, reason := reason, safeStopRequired := safeStop, terminalTick := now);
      diag := Depth(diag, queue.count);
    }

    method Admit(samples: seq<Sample>, lead: Lead, limits: JointLimits) returns (r: Result)
      requires Valid()
      modifies this`diag, queue, queue.samples
      ensures Valid() && (Value(), r) == AdmitBatch(old(Value()), samples, lead, limits)
    {
      hide PushVerdict;
      if !Accepting(diag.state) || diag.inputComplete { return BadState; }
      var verdict := queue.PushBatch(samples, lead, limits);
      diag := diag.(lastQueueResult := verdict);
      diag := Depth(diag, queue.count);
      if verdict != QueueOk { return QueueRejected; }
      diag := diag.(accepted := Capped(diag.accepted, |samples|));
      r := Result.Ok;
    }

    method Complete() returns (r: Result)
      requires Valid()
      modifies this`diag
      ensures Valid() && (Value(), r) == MarkInputComplete(old(Value()))
    {
      if !Accepting(diag.state) { return BadState; }
      diag := diag.(inputComplete := true);
      r := Result.Ok;
    }

    method PoseWithin(pos: Pose, limits: JointLimits) returns (ok: bool)
      ensures ok == PoseOk(pos, limits)
    {
      for j := 0 to LEFT_JOINTS
        invariant forall k :: 0 <= k < j ==> limits[k].minimum <= pos[k] <= limits[k].maximum
      {
        if limits[j].minimum > limits[j].maximum || pos[j] < limits[j].minimum || pos[j] > limits[j].maximum {
          return false;
        }
      }
      ok := true;
    }

    method Begin(tick: u32, pos: Pose, limits: JointLimits) returns (r: Result)
      requires Valid()
      modifies this
      ensures Valid() && (Value(), r) == Start(old(Value()), tick, pos, limits)
    {
      hide PoseOk;
      if diag.state != Priming { return BadState; }
      if queue.count == 0 || (queue.count < minimumStart && !diag.inputComplete) { return NotPrimed; }
      var first := queue.Peek();
      if first.None? || !TickAfter(first.value.tick, tick) { return InvalidAnchor; }
      var within := PoseWithin(pos, limits);
      if !within { return InvalidAnchor; }
      anchor, anchorValid := Sample(tick, pos), true;
      diag := diag.(state := Running);
      r := Result.Ok;
    }

    /** The interpolation loop. */
    method Interpolated(next: Sample, elapsed: u32, span: u32) returns (out: Pose)
      requires 0 < span && elapsed <= span
      ensures out == Between(anchor.pos, next.pos, elapsed, span)
    {
      hide IdealLerp, WrapI32;
      ghost var whole := Between(anchor.pos, next.pos, elapsed, span);
      var joints: seq<i32> := [];
      for j := 0 to LEFT_JOINTS
        invariant joints == whole[..j]
      {
        IdealLerpBetween(anchor.pos[j], next.pos[j], elapsed, span);
        joints := joints + [WrapI32(IdealLerp(anchor.pos[j], next.pos[j], elapsed, span))];
        assert joints == whole[..j + 1];
      }
      out := joints;
    }

    /** The branch of `step` in which the front sample is due or late. */
    method ApplyFront(next: Sample, now: u32) returns (r: Result, out: Option<Pose>)
      requires Valid() && queue.Contents() != [] && queue.Contents()[0] == next
      modifies this, queue
      ensures Valid() && (Value(), r, out) == StepApply(old(Value()), now)
    {
      hide NoteApplied;
      var lateness := Sub32(now, next.tick);
      if lateness > allowedLateness {
        End(Hold, MissedApplyTick, true, now);
        return Terminal, None;
      }
      var taken, sample := queue.TakeDue(next.tick);
      diag := diag.(lastQueueResult := taken);
      if taken != QueueOk { return QueueRejected, None; }
      anchor := next;
      diag := Depth(NoteApplied(diag, now, lateness), queue.count);
      if queue.count == 0 {
        if diag.inputComplete {
          diag := diag.(state := Succeeded, terminalTick := now);
        } else {
          End(Hold, QueueUnderflow, true, now);
        }
      }
      return Output, Some(next.pos);
    }

    method StepTo(now: u32) returns (r: Result, out: Option<Pose>)
      requires Valid()
      modifies this, queue
      ensures Valid() && (Value(), r, out) == Step(old(Value()), now)
    {
      hide StepApply, Between;
      if diag.state != Running || !anchorValid { return BadState, None; }
      if queue.count == 0 {
        if diag.inputComplete {
          End(Succeeded, NoReason, false, now);
        } else {
          End(Hold, QueueUnderflow, true, now);
        }
        return Terminal, None;
      }
      var peeked := queue.Peek();
      var next := peeked.value;
      if now == next.tick || TickAfter(now, next.tick) {
        r, out := ApplyFront(next, now);
        return;
      }
      if now != anchor.tick && !TickAfter(now, anchor.tick) { return InvalidAnchor, None; }
      var span, elapsed := Sub32(next.tick, anchor.tick), Sub32(now, anchor.tick);
      if elapsed > span {
        End(Hold, MissedApplyTick, true, now);
        return Terminal, None;
      }
      var pos := Interpolated(next, elapsed, span);
      return Output, Some(pos);
    }

    method InterruptBy(what: Interruption, now: u32) returns (r: Result)
      requires Valid()
      modifies this, queue
      ensures Valid() && (Value(), r) == Interrupt(old(Value()), what, now)
    {
      if !Accepting(diag.state) { return BadState; }
      match what {
        case Plan => End(Hold, PlannedHold, false, now);
        case Cancel => End(Canceled, OperatorCancel, true, now);
        case Loss => End(Aborted, ConnectionLoss, true, now);
        case Tracking => End(Aborted, TrackingError, true, now);
      }
      r := Terminal;
    }
  }
}
