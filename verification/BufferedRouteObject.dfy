/** The command route as the firmware keeps it. A validation-only command runs
    the real admission on the real ring, and then puts the ring and the
    diagnostics back. */
module BufferedRouteObject {
  import opened Words
  import opened StreamSession
  import opened SetpointQueue
  import opened BufferedExecutor
  import opened BufferedRoute
  import Objects = BufferedExecutorObject

  class CommandRoute {
    const executor: Objects.Executor
    const limits: JointLimits
    var sequence: u32
    var batches: u32
    var active: bool
    var startRequested: bool
    var started: bool

    ghost predicate Valid()
      reads this, executor, executor.queue
    {
      executor.Valid()
    }

    function Value(): Route
      requires Valid()
      reads this, executor, executor.queue, executor.queue.samples
    {
      Route(executor.Value(), limits, sequence, batches, active, startRequested, started)
    }

    constructor (minimumStart: nat, allowedLateness: u32, limits: JointLimits)
      requires RouteInit(minimumStart, allowedLateness, limits).Some?
      ensures Valid() && Some(Value()) == RouteInit(minimumStart, allowedLateness, limits)
    {
      this.limits := limits;
      executor := new Objects.Executor(minimumStart, allowedLateness);
      sequence, batches, active, startRequested, started := 0, 0, false, false, false;
    }

    /** Put a saved copy of the ring back, slot by slot. */
    method RestoreRing(ring: SetpointRing, saved: seq<Sample>, head: nat, count: nat)
      requires |saved| == ring.samples.Length == RING_SIZE && head < RING_SIZE && count <= RING_SIZE
      modifies ring, ring.samples
      ensures ring.Valid() && ring.samples[..] == saved && ring.head == head && ring.count == count
    {
      for i := 0 to RING_SIZE
        invariant ring.samples[..i] == saved[..i]
      {
        ring.samples[i] := saved[i];
        assert ring.samples[..i + 1] == ring.samples[..i] + [ring.samples[i]];
      }
      ring.head, ring.count := head, count;
    }

    /** The validation-only branch: afterwards every slot is as it was. */
    method DryRun(c: Command, lead: Lead) returns (r: Result)
      requires Valid()
      modifies executor`diag, executor.queue, executor.queue.samples
      ensures Valid() && Value() == old(Value())
      ensures executor.queue.samples[..] == old(executor.queue.samples[..])
      ensures executor.queue.head == old(executor.queue.head)
      ensures r == AdmitBatch(old(Value()).exec, c.samples, lead, limits).1
    {
      var ring := executor.queue;
      var saved, head, count, diag := ring.samples[..], ring.head, ring.count, executor.diag;
      r := executor.Admit(c.samples, lead, limits);
      RestoreRing(ring, saved, head, count);
      executor.diag := diag;
      SameRing(ring);
    }

    /** A ring with the same slots, head and count holds the same samples. */
    twostate lemma SameRing(ring: SetpointRing)
      requires old(ring.Valid()) && ring.Valid()
      requires ring.samples[..] == old(ring.samples[..]) && ring.head == old(ring.head) && ring.count == old(ring.count)
      ensures ring.Contents() == old(ring.Contents())
    {
      forall i | 0 <= i < ring.count
        ensures ring.Contents()[i] == old(ring.Contents())[i]
      {
        var k := Slot(ring.head, i);
        assert ring.samples[..][k] == old(ring.samples[..])[k];
      }
    }

    method Admit(c: Command, request: u32, lead: Lead) returns (r: CommandResult)
      requires Valid()
      modifies this, executor`diag, executor.queue, executor.queue.samples
      ensures Valid() && (Value(), r) == RouteAdmit(old(Value()), c, request, lead)
    {
      hide AdmitBatch, Flag, FlagsOk;
      if !FlagsOk(c.flags) { return InvalidFlags; }
      if (Flag(c.flags, BEGIN) && active) || (!Flag(c.flags, BEGIN) && !active) || (Flag(c.flags,
          START) && startRequested) {
        return BadCommandState;
      }
      if Flag(c.flags, VALIDATION_ONLY) {
        var dry := DryRun(c, lead);
        AdmissionTouchesQueueOnly(old(Value()).exec, c.samples, lead, limits);
        return if dry == Result.Ok then CommandOk else CommandRejected;
      }
      var result := executor.Admit(c.samples, lead, limits);
      if result != Result.Ok { return CommandRejected; }
      r := Finish(c, request);
    }

    lemma AdmissionTouchesQueueOnly(e: Exec, samples: seq<Sample>, lead: Lead, limits: JointLimits)
      ensures AdmitBatch(e, samples, lead, limits).0.(queue := e.queue, diag := e.diag) == e
    {
      hide PushVerdict;
    }

    /** What an accepted admission does to the route's own fields. */
    method Finish(c: Command, request: u32) returns (r: CommandResult)
      requires Valid()
      modifies this, executor`diag
      ensures Valid()
      ensures var was := old(Value());
              var begun := if Flag(c.flags, BEGIN) then was.(active := true, sequence := request) else was;
              var asked := if Flag(c.flags, START) then begun.(startRequested := true) else begun;
              var (closed, ended) := if Flag(c.flags, END) then MarkInputComplete(asked.exec) else (asked.exec,
                  Result.Ok);
              (Value(), r) == if ended != Result.Ok then (asked.(exec := closed), BadCommandState)
                              else (asked.(exec := closed, batches := Add32(asked.batches, 1)), CommandOk)
    {
      hide Flag, MarkInputComplete;
      if Flag(c.flags, BEGIN) { active, sequence := true, request; }
      if Flag(c.flags, START) { startRequested := true; }
      if Flag(c.flags, END) {
        var ended := executor.Complete();
        if ended != Result.Ok { return BadCommandState; }
      }
      batches := Add32(batches, 1);
      r := CommandOk;
    }

    method Begin(tick: u32, pos: Pose) returns (r: Result)
      requires Valid()
      modifies this, executor
      ensures Valid() && (Value(), r) == RouteStart(old(Value()), tick, pos)
    {
      hide Start;
      if !active || !startRequested || started { return BadState; }
      r := executor.Begin(tick, pos, limits);
      if r == Result.Ok { started := true; }
    }
  }
}
