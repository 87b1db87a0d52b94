/** The executor refines a plan: an append extends the plan, a splice cuts it
    at a tick and extends what is left, and what has been applied is always the
    part of the plan that is no longer queued. */
module PlanRefinement {
  import opened Words
  import opened StreamContract
  import opened StreamSession
  import opened StreamExecutor
  import opened ExecutorRuns
  import opened Timeline

  /** What the host's encoder guarantees beyond the decoder's neighbour check:
      no sample lies 2^31 ms or more past the first. */
  ghost predicate WireOrdered(b: Batch) {
    forall i :: 0 <= i < |b.samples| ==> Sub32(b.samples[i].tick, b.firstApplyTick) < TWO_31
  }

  /** `tick` is far enough inside the half-window of `base` that the control
      tick after it is inside too. */
  ghost predicate Near(base: u32, tick: u32) {
    Since(base, tick) + CONTROL_TICK_MS < TWO_31
  }

  lemma {:induction false} OffsetsIncrease(b: Batch, i: nat, j: nat)
    requires WellDecoded(b) && WireOrdered(b) && i < j < |b.samples|
    ensures Sub32(b.samples[i].tick, b.firstApplyTick) < Sub32(b.samples[j].tick, b.firstApplyTick)
  {
    HalfWindow(b.firstApplyTick, b.samples[j].tick, b.samples[j - 1].tick);
    if i < j - 1 {
      OffsetsIncrease(b, i, j - 1);
    }
  }

  /** An accepted batch lies, in order, after the current tick and within the
      maximum lead. */
  lemma AcceptedTicks(base: u32, b: Batch, kind: Kind, policy: Policy, now: u32,
                      epoch: u32, horizon: u32, last: u32, at: Vec)
    requires WellDecoded(b) && WireOrdered(b)
    requires ValidateTransition(b, kind, policy, now, epoch, horizon, last, at) == ContractOk
    requires Since(base, now) + policy.maximumLeadMs < TWO_31
    ensures Ordered(base, b.samples)
    ensures forall i :: 0 <= i < |b.samples| ==>
              Since(base, now) < Since(base, b.samples[i].tick) <= Since(base, now) + policy.maximumLeadMs
  {
    hide StepsAllowed, WithinOneStep;
    var first, n := b.firstApplyTick, |b.samples|;
    assert TickAfter(first, now);
    forall i | 0 <= i < n
      ensures Since(base, b.samples[i].tick) == Since(base, now) + Sub32(first, now) + Sub32(b.samples[i].tick, first)
      ensures Since(base, now) < Since(base, b.samples[i].tick) <= Since(base, now) + policy.maximumLeadMs
    {
      assert Sub32(b.samples[n - 1].tick, now) <= policy.maximumLeadMs;
      if i < n - 1 {
        OffsetsIncrease(b, i, n - 1);
      }
    }
    forall i, j | 0 <= i < j < n
      ensures Since(base, b.samples[i].tick) < Since(base, b.samples[j].tick)
    {
      OffsetsIncrease(b, i, j);
    }
  }

  /** The control tick of a sample: at or after it, less than one tick later,
      and on the grid of the start tick. */
  lemma ControlTickOf(base: u32, epoch: u32, tick: u32)
    requires Since(base, epoch) <= Since(base, tick) && Near(base, tick)
    ensures var due := FirstControlTick(epoch, tick);
            && Since(base, tick) <= Since(base, due) < Since(base, tick) + CONTROL_TICK_MS
            && (Since(base, due) - Since(base, epoch)) % CONTROL_TICK_MS == 0
  {
    var r := Since(base, tick) - Since(base, epoch);
    HalfWindow(base, tick, epoch);
    assert Sub32(tick, epoch) == r;
    var k := (r + 4) / 5;
    assert FirstControlTick(epoch, tick) == Add32(epoch, k * 5);
    assert r <= k * 5 < r + 5;
    assert Since(base, FirstControlTick(epoch, tick)) == Since(base, epoch) + k * 5;
  }

  // ---- The plan ----

  /** The samples of a plan that come before `tick`. */
  function Before(plan: seq<Setpoint>, tick: u32): seq<Setpoint> {
    if plan == [] then []
    else (if TickAfter(tick, plan[0].tick) then [plan[0]] else []) + Before(plan[1..], tick)
  }

  lemma {:induction false} BeforeAll(plan: seq<Setpoint>, rest: seq<Setpoint>, tick: u32)
    requires forall i :: 0 <= i < |plan| ==> TickAfter(tick, plan[i].tick)
    ensures Before(plan + rest, tick) == plan + Before(rest, tick)
  {
    if plan == [] {
      assert plan + rest == rest;
    } else {
      assert (plan + rest)[1..] == plan[1..] + rest;
      BeforeAll(plan[1..], rest, tick);
    }
  }

  lemma {:induction false} BeforeNone(plan: seq<Setpoint>, tick: u32)
    requires forall i :: 0 <= i < |plan| ==> !TickAfter(tick, plan[i].tick)
    ensures Before(plan, tick) == []
  {
    if plan != [] {
      BeforeNone(plan[1..], tick);
    }
  }

  /** On an ordered queue, filtering by tick is what the session's cut does. */
  lemma BeforeIsRetained(base: u32, queue: seq<Setpoint>, tick: u32)
    requires Ordered(base, queue) && Since(base, tick) < TWO_31
    ensures Before(queue, tick) == queue[..RetainedFrom(queue, tick, 0)]
  {
    hide Before, RetainedFrom, TickAfter, Since;
    var n := RetainedFrom(queue, tick, 0);
    RetainedExact(base, queue, tick);
    forall i | n <= i < |queue|
      ensures !TickAfter(tick, queue[i].tick)
    {
      HalfWindow(base, tick, queue[i].tick);
    }
    BeforeNone(queue[n..], tick);
    BeforeAll(queue[..n], queue[n..], tick);
    assert queue[..n] + queue[n..] == queue;
    assert queue[..n] + [] == queue[..n];
  }

  /** An executor together with its plan and what has been applied of it. */
  datatype Ledger = Ledger(exec: Executor, applied: seq<Setpoint>, plan: seq<Setpoint>)

  /** The samples an event takes off the queue. */
  function AppliedBy(e: Executor, event: Event): seq<Setpoint> {
    var after := Handle(e, event).0.session.samples;
    if event.StepEvent? && |after| < |e.session.samples| then e.session.samples[..|e.session.samples| - |after|]
    else []
  }

  function Book(l: Ledger, event: Event): Ledger {
    var (exec, result) := Handle(l.exec, event);
    if event.OpenEvent? && result == Done then Ledger(exec, [], [])
    else if event.AdmitEvent? && result == Done && DecodeBatch(event.payload, event.kind).Ok? then
      var b := DecodeBatch(event.payload, event.kind).value;
      Ledger(exec, l.applied,
             (if event.kind == Append then l.plan else Before(l.plan, b.spliceAtTick)) + b.samples)
    else Ledger(exec, l.applied + AppliedBy(l.exec, event), l.plan)
  }

  function BookAll(l: Ledger, events: seq<Event>): Ledger
    decreases |events|
  {
    if events == [] then l else BookAll(Book(l, events[0]), events[1..])
  }

  /** The clock does not go backwards, stays in the half-window, and batches
      come from an encoder that keeps `WireOrdered`. */
  ghost predicate Timely(base: u32, clock: u32, caps: HardCaps, event: Event) {
    && Since(base, clock) <= Since(base, event.now)
    && Since(base, event.now) + caps.maximumLeadMs + CONTROL_TICK_MS < TWO_31
    && (event.AdmitEvent? && DecodeBatch(event.payload, event.kind).Ok? ==>
          WireOrdered(DecodeBatch(event.payload, event.kind).value))
  }

  ghost predicate TimelyRun(base: u32, clock: u32, caps: HardCaps, events: seq<Event>)
    decreases |events|
  {
    events == [] || (Timely(base, clock, caps, events[0]) && TimelyRun(base, events[0].now, caps, events[1..]))
  }

  /** What was applied followed by what is queued is the plan; the plan
      increases strictly; nothing was applied before its tick. */
  ghost predicate PlanOk(base: u32, clock: u32, applied: seq<Setpoint>, queue: seq<Setpoint>, plan: seq<Setpoint>) {
    && plan == applied + queue
    && Ordered(base, plan)
    && (forall i :: 0 <= i < |plan| ==> Near(base, plan[i].tick))
    && (forall i :: 0 <= i < |applied| ==> Since(base, applied[i].tick) <= Since(base, clock))
  }

  /** While running, everything queued lies after the start of the grid. */
  ghost predicate GridOk(base: u32, clock: u32, e: Executor) {
    e.diag.state == Running ==>
      && Since(base, e.controlEpochTick) <= Since(base, clock)
      && forall i :: 0 <= i < |e.session.samples| ==>
           Since(base, e.controlEpochTick) < Since(base, e.session.samples[i].tick)
  }

  /** A running executor interpolates from the sample it applied last. */
  ghost predicate AnchorOk(e: Executor, applied: seq<Setpoint>) {
    && (e.diag.state == Priming ==> applied == [])
    && (e.diag.state == Running && applied != [] ==> e.anchor == applied[|applied| - 1])
  }

  ghost predicate Refines(base: u32, clock: u32, l: Ledger) {
    && Sound(l.exec)
    && PlanOk(base, clock, l.applied, l.exec.session.samples, l.plan)
    && GridOk(base, clock, l.exec)
    && AnchorOk(l.exec, l.applied)
  }

  lemma QueueOrdered(base: u32, clock: u32, applied: seq<Setpoint>, queue: seq<Setpoint>, plan: seq<Setpoint>)
    requires PlanOk(base, clock, applied, queue, plan)
    ensures Ordered(base, queue)
    ensures forall i :: 0 <= i < |queue| ==> Near(base, queue[i].tick)
  {
    var k := |applied|;
    assert plan[k..|plan|] == queue;
    forall i | 0 <= i < |queue|
      ensures queue[i] == plan[k + i]
    {
    }
    OrderedSlice(base, plan, k, |plan|);
  }

  /** Cutting a plan at a tick after everything applied, and extending it. */
  lemma PlanExtends(base: u32, clock: u32, now: u32, applied: seq<Setpoint>, queue: seq<Setpoint>,
                    plan: seq<Setpoint>, kept: nat, more: seq<Setpoint>)
    requires PlanOk(base, clock, applied, queue, plan) && kept <= |queue|
    requires Since(base, clock) <= Since(base, now)
    requires Ordered(base, more) && |more| > 0
    requires forall i :: 0 <= i < |more| ==> Since(base, now) < Since(base, more[i].tick) && Near(base, more[i].tick)
    requires 0 < kept ==> Since(base, queue[kept - 1].tick) < Since(base, more[0].tick)
    ensures PlanOk(base, now, applied, queue[..kept] + more, plan[..|applied| + kept] + more)
  {
    var n := |applied| + kept;
    assert plan[..n] == applied + queue[..kept];
    assert plan[..n] + more == applied + (queue[..kept] + more);
    OrderedSlice(base, plan, 0, n);
    assert plan[0..n] == plan[..n];
    if 0 < n {
      assert plan[n - 1] == if 0 < kept then queue[kept - 1] else applied[n - 1];
    }
    OrderedConcat(base, plan[..n], more);
  }

  /** Filtering the plan by the splice tick keeps what was applied and what the
      session keeps. */
  lemma PlanCut(base: u32, clock: u32, applied: seq<Setpoint>, queue: seq<Setpoint>, plan: seq<Setpoint>, tick: u32)
    requires PlanOk(base, clock, applied, queue, plan)
    requires Since(base, clock) < Since(base, tick) < TWO_31
    ensures Before(plan, tick) == plan[..|applied| + RetainedFrom(queue, tick, 0)]
  {
    QueueOrdered(base, clock, applied, queue, plan);
    BeforeIsRetained(base, queue, tick);
    forall i | 0 <= i < |applied|
      ensures TickAfter(tick, applied[i].tick)
    {
      assert plan[i] == applied[i];
      HalfWindow(base, tick, applied[i].tick);
    }
    BeforeAll(applied, queue, tick);
  }

  /** Taking the first queued sample at or after its tick. */
  lemma PlanApplies(base: u32, clock: u32, now: u32, applied: seq<Setpoint>, queue: seq<Setpoint>, plan: seq<Setpoint>)
    requires PlanOk(base, clock, applied, queue, plan) && |queue| > 0
    requires Since(base, clock) <= Since(base, now) && Since(base, queue[0].tick) <= Since(base, now)
    ensures PlanOk(base, now, applied + [queue[0]], queue[1..], plan)
  {
    assert [queue[0]] + queue[1..] == queue;
    assert applied + [queue[0]] + queue[1..] == plan;
  }

  lemma PlanParts(base: u32, clock: u32, applied: seq<Setpoint>, queue: seq<Setpoint>, plan: seq<Setpoint>)
    requires PlanOk(base, clock, applied, queue, plan)
    ensures plan == applied + queue
  {
  }

  /** An admitted batch extends the plan, or cuts and extends it. */
  lemma AdmitPlan(base: u32, clock: u32, e: Executor, b: Batch, kind: Kind, now: u32,
                  applied: seq<Setpoint>, plan: seq<Setpoint>)
    requires Sound(e) && e.diag.state != Closed && WellDecoded(b) && WireOrdered(b)
    requires PlanOk(base, clock, applied, e.session.samples, plan) && GridOk(base, clock, e)
    requires Since(base, clock) <= Since(base, now)
    requires Since(base, now) + e.caps.maximumLeadMs + CONTROL_TICK_MS < TWO_31
    requires ExecAdmitBatch(e, b, kind, now).1 == Done
    ensures var after := ExecAdmitBatch(e, b, kind, now).0;
            && PlanOk(base, now, applied, after.session.samples,
                      (if kind == Append then plan else Before(plan, b.spliceAtTick)) + b.samples)
            && GridOk(base, now, after)
  {
    hide ExecAdmitBatch, PlanOk, Ordered, Sound, WireOrdered, Before, NeighboursIncrease;
    AdmittedShape(e, b, kind, now);
    var queue, kept := e.session.samples, Kept(e.session, b, kind);
    QueueOrdered(base, clock, applied, queue, plan);
    AdmittedTicks(base, e, b, kind, now);
    PlanExtends(base, clock, now, applied, queue, plan, kept, b.samples);
    if kind == Splice {
      PlanCut(base, clock, applied, queue, plan, b.spliceAtTick);
    } else {
      PlanParts(base, clock, applied, queue, plan);
      assert queue[..kept] == queue && plan[..|applied| + kept] == plan;
    }
    AdmitKeepsGrid(base, clock, now, e, queue[..kept] + b.samples, kept, b.samples);
  }

  lemma AdmitRefines(base: u32, clock: u32, l: Ledger, payload: seq<u8>, kind: Kind, now: u32)
    requires Refines(base, clock, l) && Timely(base, clock, l.exec.caps, AdmitEvent(payload, kind, now))
    requires ExecAdmit(l.exec, payload, kind, now).1 == Done
    ensures Refines(base, now, Book(l, AdmitEvent(payload, kind, now)))
  {
    hide ExecAdmitBatch, NeighboursIncrease;
    var b := DecodeBatch(payload, kind).value;
    DecodedBatch(payload, kind);
    AdmitKeeps(l.exec, payload, kind, now);
    AdmittedShape(l.exec, b, kind, now);
    AdmitPlan(base, clock, l.exec, b, kind, now, l.applied, l.plan);
  }

  lemma AdmitKeepsGrid(base: u32, clock: u32, now: u32, e: Executor, queue: seq<Setpoint>, kept: nat,
                       more: seq<Setpoint>)
    requires GridOk(base, clock, e) && Since(base, clock) <= Since(base, now)
    requires kept <= |e.session.samples| && queue == e.session.samples[..kept] + more
    requires forall i :: 0 <= i < |more| ==> Since(base, now) < Since(base, more[i].tick)
    ensures e.diag.state == Running ==> forall i :: 0 <= i < |queue| ==>
              Since(base, e.controlEpochTick) < Since(base, queue[i].tick)
  {
  }

  /** An admitted batch starts after the current tick and after everything it
      keeps of the queue. */
  lemma AdmittedTicks(base: u32, e: Executor, b: Batch, kind: Kind, now: u32)
    requires WellDecoded(b) && WireOrdered(b) && Sound(e) && e.diag.state != Closed
    requires ExecAdmitBatch(e, b, kind, now).1 == Done
    requires Ordered(base, e.session.samples)
    requires Since(base, now) + e.caps.maximumLeadMs + CONTROL_TICK_MS < TWO_31
    ensures Ordered(base, b.samples)
    ensures forall i :: 0 <= i < |b.samples| ==>
              Since(base, now) < Since(base, b.samples[i].tick) && Near(base, b.samples[i].tick)
    ensures kind == Splice ==> b.samples[0].tick == b.spliceAtTick
    ensures var kept := Kept(e.session, b, kind);
            0 < kept ==> Since(base, e.session.samples[kept - 1].tick) < Since(base, b.samples[0].tick)
  {
    hide ExecAdmitBatch, ValidateTransition;
    var s := e.session;
    var at := AdmittedVerdict(e, b, kind, now);
    var epoch := if s.epochEstablished then s.arbiterEpoch else b.arbiterEpoch;
    var last := if |s.samples| > 0 then s.samples[|s.samples| - 1].tick else now;
    AcceptedTicks(base, b, kind, s.policy, now, epoch, s.horizonEndTick, last, at);
    AcceptedFirst(b, kind, s.policy, now, epoch, s.horizonEndTick, last, at);
    var kept := Kept(s, b, kind);
    if 0 < kept {
      HalfWindow(base, b.samples[0].tick, s.samples[kept - 1].tick);
    }
  }

  /** The verdict behind an admission. */
  lemma AdmittedVerdict(e: Executor, b: Batch, kind: Kind, now: u32) returns (at: Vec)
    requires 0 < |b.samples| <= WIRE_MAX_SAMPLES
    requires ExecAdmitBatch(e, b, kind, now).1 == Done
    ensures BatchVerdict(e.session, b, kind, now, at) == ContractOk
    ensures kind == Splice ==> Interpolate(e.session.samples, b.spliceAtTick) == Some(at)
  {
    hide BatchVerdict, Interpolate, BatchWithinLimits, CrossBatchOk;
    at := if kind == Splice then Interpolate(e.session.samples, b.spliceAtTick).value else ZERO_VEC;
  }

  lemma AcceptedFirst(b: Batch, kind: Kind, policy: Policy, now: u32, epoch: u32, horizon: u32, last: u32, at: Vec)
    requires |b.samples| > 0
    requires ValidateTransition(b, kind, policy, now, epoch, horizon, last, at) == ContractOk
    ensures kind == Append ==> TickAfter(b.firstApplyTick, last)
    ensures kind == Splice ==> b.samples[0].tick == b.spliceAtTick
  {
    hide StepsAllowed, WithinOneStep;
  }

  /** What a step may do to the queue, the grid and the state. */
  lemma StepShape(e: Executor, now: u32)
    ensures var after := ExecStep(e, now).0;
            && after.controlEpochTick == e.controlEpochTick
            && (after.diag.state == Running ==> e.diag.state == Running)
            && (after.diag.state == Priming ==> e.diag.state == Priming)
            && (after.session == e.session ==> after.anchor == e.anchor)
            && (after.session != e.session ==>
                  && after.anchor == e.session.samples[0]
                  && e.diag.state == Running && |e.session.samples| > 0
                  && after.session == e.session.(samples := e.session.samples[1..])
                  && !TickAfter(FirstControlTick(e.controlEpochTick, e.session.samples[0].tick), now))
  {
    hide LerpVec, TimedOut, FirstControlTick, TickAfter;
  }

  lemma StepRefines(base: u32, clock: u32, l: Ledger, now: u32)
    requires Refines(base, clock, l) && Timely(base, clock, l.exec.caps, StepEvent(now))
    ensures Refines(base, now, Book(l, StepEvent(now)))
  {
    var e := l.exec;
    var queue := e.session.samples;
    StepKeeps(e, now);
    StepShape(e, now);
    if ExecStep(e, now).0.session != e.session {
      QueueOrdered(base, clock, l.applied, queue, l.plan);
      var due := FirstControlTick(e.controlEpochTick, queue[0].tick);
      ControlTickOf(base, e.controlEpochTick, queue[0].tick);
      HalfWindow(base, due, now);
      PlanApplies(base, clock, now, l.applied, queue, l.plan);
      assert queue[..1] == [queue[0]];
    } else {
      assert l.applied + [] == l.applied;
    }
  }

  lemma StartRefines(base: u32, clock: u32, l: Ledger, now: u32, pos: Vec)
    requires Refines(base, clock, l) && Timely(base, clock, l.exec.caps, StartEvent(now, pos))
    ensures Refines(base, now, Book(l, StartEvent(now, pos)))
  {
    var queue := l.exec.session.samples;
    QueueOrdered(base, clock, l.applied, queue, l.plan);
    if ExecStart(l.exec, now, pos).1 == Done {
      HalfWindow(base, queue[0].tick, now);
    }
    assert l.applied + [] == l.applied;
  }

  lemma OpenRefines(base: u32, clock: u32, l: Ledger, payload: seq<u8>, now: u32)
    requires Refines(base, clock, l) && Timely(base, clock, l.exec.caps, OpenEvent(payload, now))
    ensures Refines(base, now, Book(l, OpenEvent(payload, now)))
  {
    hide DecodePolicy, ValidatePolicy, PolicyInForce, Near;
    OpenKeeps(l.exec, payload, now);
    assert l.applied + [] == l.applied;
  }

  /** An event that leaves the plan, the queue, the state and the grid. */
  lemma IdleRefines(base: u32, clock: u32, now: u32, l: Ledger, exec: Executor)
    requires Refines(base, clock, l) && Since(base, clock) <= Since(base, now) && Sound(exec)
    requires exec.session == l.exec.session && exec.controlEpochTick == l.exec.controlEpochTick
    requires exec.diag.state == Running ==> l.exec.diag.state == Running
    requires exec.diag.state == Priming ==> l.exec.diag.state == Priming
    requires exec.anchor == l.exec.anchor
    ensures Refines(base, now, Ledger(exec, l.applied + [], l.plan))
  {
    hide Sound, Ordered, Near;
    assert l.applied + [] == l.applied;
  }

  lemma BookRefines(base: u32, clock: u32, l: Ledger, event: Event)
    requires Refines(base, clock, l) && Timely(base, clock, l.exec.caps, event)
    ensures Refines(base, event.now, Book(l, event)) && Book(l, event).exec.caps == l.exec.caps
  {
    hide ExecOpen, ExecAdmit, ExecStep, ExecStart, Sound, PlanOk, GridOk;
    HandleKeeps(l.exec, event);
    match event
    case OpenEvent(payload, now) => OpenRefines(base, clock, l, payload, now);
    case AdmitEvent(payload, kind, now) =>
      if Handle(l.exec, event).1 == Done {
        AdmitRefines(base, clock, l, payload, kind, now);
      } else {
        RefusalChangesNoPlan(l.exec, payload, kind, now);
        AdmitRefusedState(l.exec, payload, kind, now);
        IdleRefines(base, clock, now, l, Handle(l.exec, event).0);
      }
    case StartEvent(now, pos) => StartRefines(base, clock, l, now, pos);
    case StepEvent(now) => StepRefines(base, clock, l, now);
    case FeedbackEvent(now, joint, commanded, measured) =>
      IdleRefines(base, clock, now, l, Handle(l.exec, event).0);
  }

  lemma AdmitRefusedState(e: Executor, payload: seq<u8>, kind: Kind, now: u32)
    requires ExecAdmit(e, payload, kind, now).1 != Done
    ensures ExecAdmit(e, payload, kind, now).0.diag.state == e.diag.state
    ensures ExecAdmit(e, payload, kind, now).0.controlEpochTick == e.controlEpochTick
    ensures ExecAdmit(e, payload, kind, now).0.anchor == e.anchor
  {
    hide ExecAdmitBatch, DecodeBatch;
    if (e.diag.state == Priming || e.diag.state == Running) && DecodeBatch(payload, kind).Ok? {
      DecodedBatch(payload, kind);
      RefusedShape(e, DecodeBatch(payload, kind).value, kind, now);
    }
  }

  function EndClock(clock: u32, events: seq<Event>): u32
    decreases |events|
  {
    if events == [] then clock else EndClock(events[0].now, events[1..])
  }

  /** Plan refinement, over every timely run. */
  lemma {:induction false} RunsRefine(base: u32, clock: u32, l: Ledger, events: seq<Event>)
    requires Refines(base, clock, l) && TimelyRun(base, clock, l.exec.caps, events)
    ensures Refines(base, EndClock(clock, events), BookAll(l, events)) && BookAll(l, events).exec.caps == l.exec.caps
    decreases |events|
  {
    if events != [] {
      BookRefines(base, clock, l, events[0]);
      RunsRefine(base, events[0].now, Book(l, events[0]), events[1..]);
    }
  }

  /** Once the queue has drained, a running executor holds the plan's last
      sample. */
  lemma DrainedHoldsTail(base: u32, clock: u32, l: Ledger)
    requires Refines(base, clock, l) && l.exec.diag.state == Running && l.exec.session.samples == [] && l.plan != []
    ensures l.exec.anchor == l.plan[|l.plan| - 1]
  {
    hide Sound, GridOk, Ordered, Near;
  }

  lemma {:induction false} BookIsRun(l: Ledger, events: seq<Event>)
    ensures BookAll(l, events).exec == Run(l.exec, events)
    decreases |events|
  {
    hide Handle, Before;
    if events != [] {
      BookIsRun(Book(l, events[0]), events[1..]);
    }
  }

  /** Plan refinement from reset: whatever is opened, admitted, started and
      stepped, in time. */
  lemma RunsRefineFromReset(base: u32, caps: HardCaps, limits: Limits, events: seq<Event>)
    requires TimelyRun(base, base, caps, events)
    ensures var reset := ExecInit(caps, limits);
            var l := BookAll(Ledger(reset, [], []), events);
            && l.exec == Run(reset, events) && l.exec.caps == caps
            && Refines(base, EndClock(base, events), l)
  {
    hide TimelyRun;
    var reset := ExecInit(caps, limits);
    InitIsSound(caps, limits);
    RunsRefine(base, base, Ledger(reset, [], []), events);
    BookIsRun(Ledger(reset, [], []), events);
  }

  /** A step that takes a sample off the queue outputs exactly that sample. */
  lemma AppliedIsDispatched(e: Executor, now: u32)
    requires AppliedBy(e, StepEvent(now)) != []
    ensures AppliedBy(e, StepEvent(now)) == [e.session.samples[0]]
    ensures Dispatched(ExecStep(e, now)) == Some(e.session.samples[0].pos)
    ensures ExecStep(e, now).0.anchor == e.session.samples[0]
  {
    hide LerpVec, TimedOut;
  }
}
