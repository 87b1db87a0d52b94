/** Splices that continue the line the executor is on, at a tick of the queue's
    own grid: what the host builds. They keep the queue within the step limit
    and leave its first sample. */
module GridSplice {
  import opened Words
  import opened StreamContract
  import opened StreamSession
  import opened Timeline
  import opened SegmentSlew

  /** The splice starts on the queue's trajectory, a whole number of control
      ticks before its last sample. */
  ghost predicate OnLine(queue: seq<Setpoint>, b: Batch) {
    && queue != [] && b.samples != []
    && Interpolate(queue, b.spliceAtTick) == Some(b.samples[0].pos)
    && Sub32(queue[|queue| - 1].tick, b.spliceAtTick) % CONTROL_TICK_MS == 0
  }

  /** All ticks of a queue in allowed steps lie on one grid. */
  lemma {:induction false} OneGrid(E: u32, queue: seq<Setpoint>, m: Vec, i: nat, j: nat)
    requires Ordered(E, queue) && StepsAllowed(queue, m) && i <= j < |queue|
    ensures (Since(E, queue[j].tick) - Since(E, queue[i].tick)) % CONTROL_TICK_MS == 0
    decreases j - i
  {
    hide Ordered, StepAllowed, Since;
    if i < j {
      OneStep(E, queue, m, j);
      OneGrid(E, queue, m, i, j - 1);
      WholeTicks(Since(E, queue[j].tick) - Since(E, queue[j - 1].tick),
                 Since(E, queue[j - 1].tick) - Since(E, queue[i].tick));
    }
  }

  lemma OneStep(E: u32, queue: seq<Setpoint>, m: Vec, j: nat)
    requires Ordered(E, queue) && StepsAllowed(queue, m) && 0 < j < |queue|
    ensures (Since(E, queue[j].tick) - Since(E, queue[j - 1].tick)) % CONTROL_TICK_MS == 0
  {
    hide Ordered;
    assert StepAllowed(queue[j - 1], queue[j], m);
    OrderedPair(E, queue, j - 1, j);
    HalfWindow(E, queue[j].tick, queue[j - 1].tick);
  }

  lemma WholeTicks(x: int, y: int)
    requires x % CONTROL_TICK_MS == 0 && y % CONTROL_TICK_MS == 0
    ensures (x + y) % CONTROL_TICK_MS == 0 && (x - y) % CONTROL_TICK_MS == 0
  {
  }

  lemma OrderedPair(E: u32, queue: seq<Setpoint>, i: nat, j: nat)
    requires Ordered(E, queue) && i < j < |queue|
    ensures Since(E, queue[i].tick) < Since(E, queue[j].tick) < TWO_31
  {
  }

  /** The part of a segment up to one of its control ticks is an allowed step. */
  lemma PartStep(from: Setpoint, to: Setpoint, tick: u32, m: Vec)
    requires StepAllowed(from, to, m) && (forall j :: 0 <= j < JOINT_COUNT ==> 0 < m[j])
    requires 0 < Sub32(tick, from.tick) < Sub32(to.tick, from.tick) && Sub32(tick, from.tick) % CONTROL_TICK_MS == 0
    ensures StepAllowed(from, Setpoint(tick, LerpVec(from.pos, to.pos, Sub32(tick, from.tick),
                                                     Sub32(to.tick, from.tick))), m)
  {
    hide LerpVec;
    var elapsed, span := Sub32(tick, from.tick), Sub32(to.tick, from.tick);
    AllowedReaches(from, to, m);
    SegmentEnds(from.pos, to.pos, span);
    PointsClose(from.pos, to.pos, span, 0, elapsed, m, elapsed / CONTROL_TICK_MS);
  }

  /** A point of the trajectory on the grid follows what is kept before it in an
      allowed step; where nothing is kept it is the first sample. */
  lemma PointJoins(E: u32, queue: seq<Setpoint>, at: u32, pos: Vec, m: Vec)
    requires Ordered(E, queue) && StepsAllowed(queue, m) && (forall j :: 0 <= j < JOINT_COUNT ==> 0 < m[j])
    requires Since(E, at) < TWO_31 && Interpolate(queue, at) == Some(pos)
    requires queue != [] && Sub32(queue[|queue| - 1].tick, at) % CONTROL_TICK_MS == 0
    ensures var kept := RetainedFrom(queue, at, 0);
            if kept == 0 then queue[0] == Setpoint(at, pos) else StepAllowed(queue[kept - 1], Setpoint(at, pos), m)
  {
    hide LerpVec, StepAllowed, InterpolateFrom, RetainedFrom, Interpolate;
    InterpolateAnswers(E, queue, at);
    var i := CoverExists(E, queue, at, |queue|);
    IsInterpolated(E, queue, i, at);
    RetainedExact(E, queue, at);
    var kept := RetainedFrom(queue, at, 0);
    if queue[i].tick == at {
      assert kept == i;
      if 0 < i {
        assert StepAllowed(queue[i - 1], queue[i], m);
      }
    } else {
      assert kept == i + 1;
      PointOnGrid(E, queue, i, at, m);
      assert StepAllowed(queue[i], queue[i + 1], m);
      PartStep(queue[i], queue[i + 1], at, m);
    }
  }

  lemma IsInterpolated(E: u32, queue: seq<Setpoint>, i: nat, at: u32)
    requires Ordered(E, queue) && Since(E, at) < TWO_31 && Covers(E, queue, i, at)
    ensures queue[i].tick == at || queue[i].tick != queue[i + 1].tick
    ensures Interpolate(queue, at) == Some(PointAt(queue, i, at))
  {
    ScanFinds(E, queue, i, at, 0);
  }

  lemma PointOnGrid(E: u32, queue: seq<Setpoint>, i: nat, at: u32, m: Vec)
    requires Ordered(E, queue) && StepsAllowed(queue, m) && i + 1 < |queue| && Since(E, at) < TWO_31
    requires Since(E, queue[i].tick) < Since(E, at) < Since(E, queue[i + 1].tick)
    requires Sub32(queue[|queue| - 1].tick, at) % CONTROL_TICK_MS == 0
    ensures 0 < Sub32(at, queue[i].tick) < Sub32(queue[i + 1].tick, queue[i].tick)
    ensures Sub32(at, queue[i].tick) % CONTROL_TICK_MS == 0
  {
    hide StepsAllowed, Ordered, Since, Sub32;
    var last := queue[|queue| - 1].tick;
    OrderedPair(E, queue, i, |queue| - 1);
    OneGrid(E, queue, m, i, |queue| - 1);
    if i + 1 < |queue| - 1 {
      OrderedPair(E, queue, i + 1, |queue| - 1);
    }
    OrderedPair(E, queue, i, i + 1);
    HalfWindow(E, at, queue[i].tick);
    HalfWindow(E, queue[i + 1].tick, queue[i].tick);
    HalfWindow(E, last, at);
    WholeTicks(Since(E, last) - Since(E, queue[i].tick), Since(E, last) - Since(E, at));
  }

  /** A splice on the line keeps the queue in allowed steps, and its first
      sample. */
  lemma SpliceJoins(E: u32, queue: seq<Setpoint>, b: Batch, m: Vec)
    requires Ordered(E, queue) && StepsAllowed(queue, m) && (forall j :: 0 <= j < JOINT_COUNT ==> 0 < m[j])
    requires OnLine(queue, b) && b.samples[0].tick == b.spliceAtTick && Since(E, b.spliceAtTick) < TWO_31
    requires StepsAllowed(b.samples, m)
    ensures var next := queue[..RetainedFrom(queue, b.spliceAtTick, 0)] + b.samples;
            StepsAllowed(next, m) && next[0] == queue[0]
  {
    hide StepAllowed, RetainedFrom, Interpolate;
    var kept := RetainedFrom(queue, b.spliceAtTick, 0);
    var next := queue[..kept] + b.samples;
    PointJoins(E, queue, b.spliceAtTick, b.samples[0].pos, m);
    assert b.samples[0] == Setpoint(b.spliceAtTick, b.samples[0].pos);
    forall i | 0 < i < |next|
      ensures StepAllowed(next[i - 1], next[i], m)
    {
      if i < kept {
        assert next[i - 1] == queue[i - 1] && next[i] == queue[i];
      } else if kept < i {
        assert next[i - 1] == b.samples[i - 1 - kept] && next[i] == b.samples[i - kept];
      }
    }
  }
}
