/** From start to success: a stream primed, started, fed on time and fully
    admitted up to its horizon succeeds at exactly one control tick. */
module StreamCompletion {
  import opened Words
  import opened StreamContract
  import opened StreamSession
  import opened StreamExecutor
  import opened ExecutorRuns
  import opened PlanRefinement
  import opened SlewBound

  // ---- The end of a finite stream ----

  /** A run without feedback faults in which nothing further is admitted or
      opened. */
  ghost predicate Undisturbed(E: u32, k: nat, e: Executor, events: seq<Event>)
    decreases |events|
  {
    events == [] ||
    match events[0]
    case StepEvent(now) =>
      5 * k + 10 < TWO_31 && now == TickOf(E, k) && Undisturbed(E, k + 1, Handle(e, events[0]).0, events[1..])
    case AdmitEvent(_, _, _) =>
      Handle(e, events[0]).1 != Done && Undisturbed(E, k, Handle(e, events[0]).0, events[1..])
    case FeedbackEvent(_, _, _, _) =>
      Handle(e, events[0]).1 != Terminal && Undisturbed(E, k, Handle(e, events[0]).0, events[1..])
    case _ => Handle(e, events[0]).1 != Done && Undisturbed(E, k, Handle(e, events[0]).0, events[1..])
  }

  function StepsIn(events: seq<Event>): nat {
    if events == [] then 0 else (if events[0].StepEvent? then 1 else 0) + StepsIn(events[1..])
  }

  /** The last sample of the queue is the sample at the horizon. */
  ghost predicate EndsAtHorizon(e: Executor) {
    && e.session.samples != [] && e.session.horizonEndTick != 0
    && e.session.samples[|e.session.samples| - 1].tick == e.session.horizonEndTick
  }

  /** The number of the first control tick at or after the horizon. */
  function FinalStep(E: u32, horizon: u32): nat {
    (Since(E, horizon) as int + 4) / 5
  }

  /** How far the queue is from its last sample, in control ticks. */
  lemma HorizonGap(E: u32, k: nat, a: nat, queue: seq<Setpoint>, m: Vec)
    requires QueueAhead(E, k, a, queue, m) && queue != []
    ensures var final := FinalStep(E, queue[|queue| - 1].tick);
            && k <= final
            && (final <= k ==> |queue| == 1 && Since(E, queue[0].tick) <= 5 * k)
            && (k < final && Since(E, queue[0].tick) <= 5 * k ==> |queue| > 1)
  {
    QueueAdvances(E, k, a, queue, m);
    var last := queue[|queue| - 1];
    if |queue| > 1 {
      assert StepAllowed(queue[0], queue[1], m);
      assert Since(E, queue[0].tick) + 5 <= Since(E, queue[1].tick) <= Since(E, last.tick);
    }
  }

  /** What a step makes of a stream that ends at its horizon. */
  ghost predicate TowardsHorizon(E: u32, k: nat, last: Setpoint, r: (Executor, Result, Option<Vec>)) {
    if k < FinalStep(E, last.tick) then
      && r.0.diag.state == Running && Dispatched(r).Some? && EndsAtHorizon(r.0)
      && r.0.session.samples[|r.0.session.samples| - 1] == last
      && r.0.session.horizonEndTick == last.tick
    else
      && r.0.diag.state == Succeeded && 5 * k < TWO_31 && r.0.diag.terminalTick == TickOf(E, k)
      && Dispatched(r) == Some(last.pos) && r.0.lastOutput == last.pos
  }

  lemma ApplyTowardsHorizon(E: u32, k: nat, e: Executor)
    requires OnTime(E, k, e) && EndsAtHorizon(e) && Since(E, e.session.samples[0].tick) <= 5 * k
    ensures TowardsHorizon(E, k, e.session.samples[|e.session.samples| - 1],
                           StepApply(e, TickOf(E, k), TickOf(E, k)))
  {
    var queue := e.session.samples;
    HorizonGap(E, k, Since(E, e.anchor.tick), queue, e.session.policy.maximumStep);
    if |queue| > 1 {
      HalfWindow(E, queue[|queue| - 1].tick, queue[0].tick);
      assert Since(E, queue[0].tick) < Since(E, queue[|queue| - 1].tick);
    }
  }

  lemma InterpolateTowardsHorizon(E: u32, k: nat, e: Executor)
    requires OnTime(E, k, e) && EndsAtHorizon(e) && 5 * k < Since(E, e.session.samples[0].tick)
    ensures TowardsHorizon(E, k, e.session.samples[|e.session.samples| - 1], StepInterpolate(e, TickOf(E, k)))
  {
    HorizonGap(E, k, Since(E, e.anchor.tick), e.session.samples, e.session.policy.maximumStep);
    HalfWindow(E, e.session.samples[0].tick, e.anchor.tick);
    HalfWindow(E, TickOf(E, k), e.anchor.tick);
  }

  /** Before the final step, a step dispatches something and leaves the horizon
      in the queue; the final step applies it and succeeds. */
  lemma StepTowardsHorizon(E: u32, k: nat, e: Executor)
    requires OnTime(E, k, e) && EndsAtHorizon(e)
    ensures k <= FinalStep(E, e.session.horizonEndTick)
    ensures TowardsHorizon(E, k, e.session.samples[|e.session.samples| - 1], ExecStep(e, TickOf(E, k)))
  {
    var e' := e.(lastStepTick := TickOf(E, k), lastStepValid := true);
    HorizonGap(E, k, Since(E, e.anchor.tick), e.session.samples, e.session.policy.maximumStep);
    GatesOpen(E, k, e);
    DueNow(E, k, e);
    if Since(E, e.session.samples[0].tick) <= 5 * k {
      ApplyTowardsHorizon(E, k, e');
    } else {
      InterpolateTowardsHorizon(E, k, e');
    }
  }

  /** The state of a finite stream after some steps of an undisturbed run. */
  ghost predicate CompletedBy(E: u32, last: Setpoint, k: nat, steps: nat, after: Executor, outputs: seq<Vec>) {
    var final := FinalStep(E, last.tick);
    && k <= final
    && (k + steps <= final ==> after.diag.state == Running && |outputs| == steps)
    && (final < k + steps ==>
          && after.diag.state == Succeeded && 5 * final < TWO_31 && after.diag.terminalTick == TickOf(E, final)
          && after.lastOutput == last.pos
          && |outputs| == final + 1 - k && outputs[final - k] == last.pos)
  }

  /** Finite completion. Undisturbed, a finite stream whose queue ends at its
      horizon is still running before its final step, dispatching at every
      step, and SUCCEEDED from that step on, with the last sample as output. */
  lemma {:induction false} FiniteStreamCompletes(E: u32, k: nat, e: Executor, events: seq<Event>)
    requires OnTime(E, k, e) && EndsAtHorizon(e) && Undisturbed(E, k, e, events)
    ensures CompletedBy(E, e.session.samples[|e.session.samples| - 1], k, StepsIn(events),
                        Run(e, events), Outputs(e, events))
    decreases |events|
  {
    hide OnTime, ExecOpen, ExecAdmit, ExecStart, ExecStep, ExecJointFeedback, TowardsHorizon;
    StepTowardsHorizonBound(E, k, e);
    if events != [] {
      if events[0].StepEvent? {
        CompletesAfterStep(E, k, e, events);
      } else {
        var after := Handle(e, events[0]).0;
        UndisturbedKeeps(E, k, e, events);
        FiniteStreamCompletes(E, k, after, events[1..]);
        assert Outputs(e, events) == Outputs(after, events[1..]);
      }
    }
  }

  lemma UndisturbedKeeps(E: u32, k: nat, e: Executor, events: seq<Event>)
    requires OnTime(E, k, e) && EndsAtHorizon(e) && Undisturbed(E, k, e, events)
    requires events != [] && !events[0].StepEvent?
    ensures OnTime(E, k, Handle(e, events[0]).0) && Handle(e, events[0]).0.session == e.session
  {
    hide QueueAhead, SegmentOk, PolicyInForce, ExecAdmit;
    if events[0].AdmitEvent? {
      RefusedAdmit(e, events[0].payload, events[0].kind, events[0].now);
    }
  }

  lemma StepTowardsHorizonBound(E: u32, k: nat, e: Executor)
    requires OnTime(E, k, e) && EndsAtHorizon(e)
    ensures k <= FinalStep(E, e.session.horizonEndTick) && e.diag.state == Running
  {
    HorizonGap(E, k, Since(E, e.anchor.tick), e.session.samples, e.session.policy.maximumStep);
  }

  lemma {:induction false} CompletesAfterStep(E: u32, k: nat, e: Executor, events: seq<Event>)
    requires OnTime(E, k, e) && EndsAtHorizon(e) && Undisturbed(E, k, e, events)
    requires events != [] && events[0].StepEvent?
    ensures CompletedBy(E, e.session.samples[|e.session.samples| - 1], k, StepsIn(events),
                        Run(e, events), Outputs(e, events))
    decreases |events|, 0
  {
    hide OnTime, ExecOpen, ExecAdmit, ExecStart, ExecStep, ExecJointFeedback;
    var r := ExecStep(e, TickOf(E, k));
    StepTowardsHorizon(E, k, e);
    StepStaysOnTime(E, k, e);
    if k < FinalStep(E, e.session.horizonEndTick) {
      FiniteStreamCompletes(E, k + 1, r.0, events[1..]);
    } else {
      SuccessLasts(E, k + 1, r.0, events[1..]);
    }
    CompletionCounts(E, e.session.samples[|e.session.samples| - 1], k, r, events[1..]);
  }

  lemma CompletionCounts(E: u32, last: Setpoint, k: nat, r: (Executor, Result, Option<Vec>), rest: seq<Event>)
    requires k <= FinalStep(E, last.tick) && TowardsHorizon(E, k, last, r)
    requires k < FinalStep(E, last.tick) ==> CompletedBy(E, last, k + 1, StepsIn(rest), Run(r.0, rest), Outputs(r.0,
        rest))
    requires k == FinalStep(E, last.tick) ==>
               && Run(r.0, rest).diag.state == Succeeded && Run(r.0, rest).diag.terminalTick == r.0.diag.terminalTick
               && Run(r.0, rest).lastOutput == r.0.lastOutput && Outputs(r.0, rest) == []
    ensures CompletedBy(E, last, k, 1 + StepsIn(rest), Run(r.0, rest), [Dispatched(r).value] + Outputs(r.0, rest))
  {
  }

  lemma {:induction false} SuccessLasts(E: u32, k: nat, e: Executor, events: seq<Event>)
    requires e.diag.state == Succeeded && Undisturbed(E, k, e, events)
    ensures var after := Run(e, events);
            && after.diag.state == Succeeded && after.diag.terminalTick == e.diag.terminalTick
            && after.lastOutput == e.lastOutput && Outputs(e, events) == []
    decreases |events|
  {
    if events != [] {
      SuccessLasts(E, if events[0].StepEvent? then k + 1 else k, Handle(e, events[0]).0, events[1..]);
    }
  }

  /** Conversely SUCCEEDED is entered only by applying the sample at the
      horizon, as the last one queued. */
  lemma SuccessNeedsHorizon(e: Executor, event: Event)
    requires e.diag.state != Succeeded && Handle(e, event).0.diag.state == Succeeded
    ensures event.StepEvent? && e.diag.state == Running
    ensures |e.session.samples| == 1 && EndsAtHorizon(e)
    ensures Dispatched(ExecStep(e, event.now)) == Some(e.session.samples[0].pos)
    ensures Handle(e, event).0.session.samples == [] && Handle(e, event).0.anchor == e.session.samples[0]
  {
    hide ExecStep, ExecAdmit, ExecOpen;
    match event
    case OpenEvent(payload, now) => OpenNeverSucceeds(e, payload, now);
    case AdmitEvent(payload, kind, now) => AdmitNeverSucceeds(e, payload, kind, now);
    case StepEvent(now) => StepSucceeds(e, now);
    case _ =>
  }

  lemma OpenNeverSucceeds(e: Executor, payload: seq<u8>, now: u32)
    ensures ExecOpen(e, payload, now).0.diag.state == Succeeded ==> e.diag.state == Succeeded
  {
    hide SessionOpen;
  }

  lemma AdmitNeverSucceeds(e: Executor, payload: seq<u8>, kind: Kind, now: u32)
    ensures ExecAdmit(e, payload, kind, now).0.diag.state == e.diag.state
  {
    hide ExecAdmitBatch, DecodeBatch;
    if (e.diag.state == Priming || e.diag.state == Running) && DecodeBatch(payload, kind).Ok? {
      var b := DecodeBatch(payload, kind).value;
      DecodedBatch(payload, kind);
      if ExecAdmitBatch(e, b, kind, now).1 == Done {
        AdmittedShape(e, b, kind, now);
      } else {
        RefusedShape(e, b, kind, now);
      }
    }
  }

  lemma StepSucceeds(e: Executor, now: u32)
    requires e.diag.state != Succeeded && ExecStep(e, now).0.diag.state == Succeeded
    ensures e.diag.state == Running && |e.session.samples| == 1 && EndsAtHorizon(e)
    ensures Dispatched(ExecStep(e, now)) == Some(e.session.samples[0].pos)
    ensures ExecStep(e, now).0.session.samples == [] && ExecStep(e, now).0.anchor == e.session.samples[0]
  {
    hide LerpVec, TimedOut, FirstControlTick, TickAfter;
  }

  // ---- From the start ----

  /** Nothing in a paced run brings an ended executor back. */
  lemma {:induction false} EndedStays(E: u32, k: nat, e: Executor, events: seq<Event>)
    requires Ended(e) && Paced(E, k, e, events)
    ensures Run(e, events).diag.state != Running
    decreases |events|
  {
    hide DecodeBatch, LerpVec, TimedOut;
    if events != [] {
      EndedStays(E, if events[0].StepEvent? then k + 1 else k, Handle(e, events[0]).0, events[1..]);
    }
  }

  /** What one paced event leaves: a running executor is still on time. */
  lemma PacedEvent(E: u32, k: nat, e: Executor, events: seq<Event>)
    requires Sound(e) && OnTime(E, k, e) && events != [] && Paced(E, k, e, events)
    ensures var after := Handle(e, events[0]).0;
            var next := k + StepsIn(events[..1]);
            && Sound(after) && (after.diag.state == Running ==> OnTime(E, next, after)) && after.diag.state != Priming
            && Paced(E, next, after, events[1..])
  {
    hide Sound, OnTime, Timely, ExecStep, ExecAdmit, ExecJointFeedback;
    HandleKeeps(e, events[0]);
    assert events[..1] == [events[0]];
    match events[0]
    case StepEvent(now) =>
      StepStaysOnTime(E, k, e);
      StepNeverPrimes(E, k, e);
    case AdmitEvent(payload, kind, now) =>
      AdmitKeepsOnTime(E, k, e, payload, kind, now);
    case FeedbackEvent(now, joint, commanded, measured) =>
      FeedbackKeepsSegment(E, k, e, now, joint, commanded, measured);
    case _ =>
      OnTimeRuns(E, k, e);
      RunningRefuses(e, events[0]);
  }

  lemma StepNeverPrimes(E: u32, k: nat, e: Executor)
    requires OnTime(E, k, e)
    ensures ExecStep(e, TickOf(E, k)).0.diag.state != Priming
  {
    hide QueueAhead, SegmentOk, LerpVec, TimedOut, PolicyInForce;
  }

  lemma AdmitKeepsOnTime(E: u32, k: nat, e: Executor, payload: seq<u8>, kind: Kind, now: u32)
    requires Sound(e) && OnTime(E, k, e)
    requires ExecAdmit(e, payload, kind, now).1 == Done ==>
               && Timely(E, E, e.caps, AdmitEvent(payload, kind, now))
               && if kind == Splice then Continues(e, payload)
                  else e.session.samples == [] ==> Resuming(E, k, e, payload, now)
    ensures var after := ExecAdmit(e, payload, kind, now).0;
            OnTime(E, k, after) && after.diag.state == Running
  {
    hide ExecAdmit, QueueAhead, SegmentOk, PolicyInForce, Sound, Timely, Resuming;
    if ExecAdmit(e, payload, kind, now).1 == Done && e.session.samples == [] {
      DrainedAppendStaysOnTime(E, k, e, payload, now);
    } else {
      AdmitKeepsSegment(E, k, e, payload, kind, now);
    }
  }

  /** A paced run that is still running is on time after its last event. */
  lemma {:induction false} PacedRunsStayOnTime(E: u32, k: nat, e: Executor, events: seq<Event>)
    requires Sound(e) && OnTime(E, k, e) && Paced(E, k, e, events)
    ensures Run(e, events).diag.state == Running ==> OnTime(E, k + StepsIn(events), Run(e, events))
    decreases |events|
  {
    hide Sound, OnTime, Paced, Handle;
    if events != [] {
      PacedEvent(E, k, e, events);
      var after := Handle(e, events[0]).0;
      var next := k + StepsIn(events[..1]);
      assert StepsIn(events) == StepsIn(events[..1]) + StepsIn(events[1..]) by {
        assert events[..1][1..] == [];
      }
      if after.diag.state == Running {
        PacedRunsStayOnTime(E, next, after, events[1..]);
      } else {
        EndedStays(E, next, after, events[1..]);
      }
    }
  }

  /** Finite completion from reset. Primed by any timely events without a
      splice and started at E, paced until the horizon's sample is queued, then
      left undisturbed: the stream is running, with an output at every step,
      before the first control tick at or after the horizon, and SUCCEEDED from
      that tick on with the horizon's sample as output. */
  lemma FedStreamCompletes(base: u32, caps: HardCaps, limits: Limits, priming: seq<Event>, E: u32, pos: Vec,
                           feeding: seq<Event>, rest: seq<Event>)
    requires StartsPrimed(base, caps, limits, priming, E, pos)
    requires Paced(E, 0, ExecStart(Primed(caps, limits, priming), E, pos).0, feeding)
    requires var fed := Run(ExecStart(Primed(caps, limits, priming), E, pos).0, feeding);
             && fed.diag.state == Running && EndsAtHorizon(fed)
             && Undisturbed(E, StepsIn(feeding), fed, rest)
    ensures var fed := Run(ExecStart(Primed(caps, limits, priming), E, pos).0, feeding);
            CompletedBy(E, fed.session.samples[|fed.session.samples| - 1], StepsIn(feeding), StepsIn(rest),
                        Run(fed, rest), Outputs(fed, rest))
  {
    hide ExecStart, OnTime, Paced, Outputs, Run, Undisturbed, Follows, Aligned, CompletedBy, StartsPrimed;
    var started := ExecStart(Primed(caps, limits, priming), E, pos).0;
    StartIsOnTime(base, caps, limits, priming, E, pos, 2);
    PacedRunsStayOnTime(E, 0, started, feeding);
    FiniteStreamCompletes(E, StepsIn(feeding), Run(started, feeding), rest);
  }
}
