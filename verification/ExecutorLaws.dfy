/** The decisions of the executor, each from the story of the run: when a stream
    is left without a command, may start, and is tracked too badly; and what its
    statistics report. */
module ExecutorLaws {
  import opened Words
  import opened StreamContract
  import opened StreamSession
  import opened StreamExecutor
  import opened ExecutorRuns
  import opened PlanRefinement
  import opened ExecutorStory

  // ---- The command timeout ----

  /** A rolling stream whose host goes silent. In any timely run from reset, let
      L be when the last batch was accepted since the open: the next step of a
      running executor without a horizon holds, safely and with nothing
      dispatched, exactly when L is longer ago than the open agreed. */
  lemma CommandTimeoutIsExact(base: u32, caps: HardCaps, limits: Limits, events: seq<Event>, now: u32)
    requires TimelyRun(base, base, caps, events) && Timely(base, EndClock(base, events), caps, StepEvent(now))
    requires Run(ExecInit(caps, limits), events).diag.state == Running && StoryOf(caps, limits, events).horizon == 0
    ensures var s, r := StoryOf(caps, limits, events), ExecStep(Run(ExecInit(caps, limits), events), now);
            && s.command.Some?
            && (Stops(r, Hold, CommandTimeout, now) <==> Sub32(now, s.command.value) > Word(s.terms, 16))
            && (r.0.diag.state == Hold <==> Sub32(now, s.command.value) > Word(s.terms, 16))
  {
    hide TimelyRun, Refines, Told, TermsAre, ExecStep, FirstControlTick, OnTheWay;
    var s, l := StoryOf(caps, limits, events), LedgerOf(caps, limits, events);
    RunsFollowFromReset(base, caps, limits, events);
    NextStep(base, EndClock(base, events), s, l, now);
    CommandBehind(base, EndClock(base, events), s, l, now);
  }

  lemma CommandBehind(base: u32, clock: u32, s: Story, l: Ledger, now: u32)
    requires Follows(base, clock, s, l) && s.command.Some?
    requires Since(base, clock) <= Since(base, now) < TWO_31
    ensures Sub32(now, s.command.value) == Since(base, now) - Since(base, s.command.value)
  {
    hide Refines, Told;
    HalfWindow(base, now, s.command.value);
  }

  /** Nothing else ever puts an executor on hold. */
  lemma HoldIsTimeout(e: Executor, event: Event)
    requires e.diag.state != Hold && Handle(e, event).0.diag.state == Hold
    ensures event.StepEvent? && e.diag.state == Running && e.session.horizonEndTick == 0
    ensures Handle(e, event).0.diag.reason == CommandTimeout
  {
    hide ExecAdmit, DecodePolicy, ValidatePolicy, LerpVec, FirstControlTick, TickAfter;
    if event.AdmitEvent? {
      AdmitIdles(e, event.payload, event.kind, event.now);
    } else if event.OpenEvent? {
      OpenIdles(e, event.payload, event.now);
    }
  }

  // ---- The epoch ----

  /** Whatever happens, once established the epoch changes only through an
      accepted splice or open. */
  lemma EpochIsGuarded(e: Executor, event: Event)
    requires e.session.epochEstablished
    requires var after := Handle(e, event).0.session;
             !after.epochEstablished || after.arbiterEpoch != e.session.arbiterEpoch
    ensures Handle(e, event).1 == Done
    ensures event.OpenEvent? || (event.AdmitEvent? && event.kind == Splice)
  {
    hide ExecAdmitBatch, DecodeBatch, DecodePolicy, ValidatePolicy, StepRunning;
    match event
    case OpenEvent(payload, now) => RefusalChangesNoPlan(e, payload, Append, now);
    case AdmitEvent(payload, kind, now) =>
      RefusalChangesNoPlan(e, payload, kind, now);
      if kind == Append && ExecAdmit(e, payload, kind, now).1 == Done {
        AppendHasEpoch(e, payload, now);
      }
    case StepEvent(now) => StepShape(e, now);
    case _ =>
  }

  /** On the wire: an append is admitted only under the established epoch. */
  lemma AppendHasEpoch(e: Executor, payload: seq<u8>, now: u32)
    requires e.session.epochEstablished && ExecAdmit(e, payload, Append, now).1 == Done
    ensures |payload| >= 12 && Word(payload, 8) == e.session.arbiterEpoch
    ensures ExecAdmit(e, payload, Append, now).0.session.arbiterEpoch == e.session.arbiterEpoch
    ensures ExecAdmit(e, payload, Append, now).0.session.epochEstablished
  {
    hide ExecAdmitBatch, StepsAllowed, WithinOneStep, DecodeBatch;
    var b := DecodeBatch(payload, Append).value;
    DecodedBatch(payload, Append);
    BatchSpells(payload, Append);
    BatchIsLong(payload, Append);
    AdmittedShape(e, b, Append, now);
    var at := AdmittedVerdict(e, b, Append, now);
  }

  lemma BatchIsLong(payload: seq<u8>, kind: Kind)
    requires DecodeBatch(payload, kind).Ok?
    ensures |payload| >= BATCH_HEADER_SIZE
  {
  }

  /** The same of the session by itself. */
  lemma SessionAppendHasEpoch(s: Session, payload: seq<u8>, now: u32)
    requires s.epochEstablished && SessionBatch(s, payload, Append, now).1.status == ValidationOnly
    ensures |payload| >= 12 && Word(payload, 8) == s.arbiterEpoch
    ensures SessionBatch(s, payload, Append, now).0.arbiterEpoch == s.arbiterEpoch
  {
    hide StepsAllowed, WithinOneStep, DecodeBatch;
    BatchSpells(payload, Append);
    BatchIsLong(payload, Append);
  }

  /** Nothing in the run opens a stream or splices. */
  ghost predicate AppendsOnly(e: Executor, events: seq<Event>)
    decreases |events|
  {
    events == []
    || (!(Handle(e, events[0]).1 == Done
          && (events[0].OpenEvent? || (events[0].AdmitEvent? && events[0].kind == Splice)))
        && AppendsOnly(Handle(e, events[0]).0, events[1..]))
  }

  /** So between a splice and the next one every batch admitted bears the
      splice's epoch: a stale owner's append never enters the queue. */
  lemma {:induction false} EpochLasts(e: Executor, events: seq<Event>)
    requires e.session.epochEstablished && AppendsOnly(e, events)
    ensures Run(e, events).session.epochEstablished && Run(e, events).session.arbiterEpoch == e.session.arbiterEpoch
    ensures forall i :: 0 <= i < |events| && events[i].AdmitEvent? ==>
              Handle(Run(e, events[..i]), events[i]).1 == Done ==> Word(events[i].payload, 8) == e.session.arbiterEpoch
    decreases |events|
  {
    hide Handle, Word;
    if events != [] {
      var after := Handle(e, events[0]).0;
      if !after.session.epochEstablished || after.session.arbiterEpoch != e.session.arbiterEpoch {
        EpochIsGuarded(e, events[0]);
      }
      EpochLasts(after, events[1..]);
      forall i | 0 <= i < |events| && events[i].AdmitEvent? && Handle(Run(e, events[..i]), events[i]).1 == Done
        ensures Word(events[i].payload, 8) == e.session.arbiterEpoch
      {
        if i == 0 {
          AdmittedIs(e, events[0]);
          AppendHasEpoch(e, events[0].payload, events[0].now);
        } else {
          assert events[..i][1..] == events[1..][..i - 1] && events[i] == events[1..][i - 1];
        }
      }
    }
  }

  lemma AdmittedIs(e: Executor, event: Event)
    requires event.AdmitEvent?
    ensures Handle(e, event) == ExecAdmit(e, event.payload, event.kind, event.now)
  {
  }

  // ---- The start ----

  /** The smallest and the largest position the anchor's distance allows. */
  ghost predicate InReach(s: Story, first: Setpoint, pos: Vec, distance: nat) {
    forall j :: 0 <= j < JOINT_COUNT ==>
      var reach := AsI32(Word(s.terms, 72 + 4 * j)) * (RoundUp(distance) / CONTROL_TICK_MS);
      -reach <= first.pos[j] - pos[j] <= reach
  }

  /** When a stream may start: opened and not yet started, primed as agreed, from
      a pose inside the limits, before the first sample and within reach of
      it. */
  lemma StartDecides(base: u32, clock: u32, s: Story, l: Ledger, now: u32, pos: Vec)
    requires Follows(base, clock, s, l) && Timely(base, clock, l.exec.caps, StartEvent(now, pos))
    ensures var (after, answer) := ExecStart(l.exec, now, pos);
            && (answer == BadState <==> s.terms == [] || s.start.Some?)
            && (s.terms != [] && s.start.None? ==>
                  && l.applied == [] && |s.terms| == 120
                  && (answer == InsufficientPrime <==> |l.plan| < s.terms[0] as int + 256 * (s.terms[1] as int))
                  && (|l.plan| >= s.terms[0] as int + 256 * (s.terms[1] as int) ==>
                        && |l.plan| > 0 && answer in {Done, InvalidAnchor}
                        && (answer == Done
                            <==> && WithinLimits(l.exec.limits, pos) && Since(base, now) < Since(base, l.plan[0].tick)
                                 && InReach(s, l.plan[0], pos, Since(base, l.plan[0].tick) - Since(base, now)))))
            && (answer != Done ==> after == l.exec)
            && (answer == Done ==> after.diag.state == Running && after.anchor == Setpoint(now, pos))
  {
    hide Refines, TermsAre, WithinLimits, AnchorReaches, InReach;
    var e := l.exec;
    PrimedPlan(base, clock, s, l);
    if s.terms != [] && s.start.None? && e.session.samples != [] {
      HalfWindow(base, e.session.samples[0].tick, now);
      if Since(base, now) < Since(base, e.session.samples[0].tick) {
        ReachIs(base, s, e.session.samples[0], now, pos, e.session.policy);
      }
    }
  }

  /** Before the start nothing has been applied, and the plan is the queue. */
  lemma PrimedPlan(base: u32, clock: u32, s: Story, l: Ledger)
    requires Follows(base, clock, s, l)
    ensures l.exec.diag.state == Priming <==> s.terms != [] && s.start.None?
    ensures l.exec.diag.state == Priming ==>
              && l.applied == [] && l.plan == l.exec.session.samples && TermsAre(s.terms, l.exec.session.policy)
              && |s.terms| == 120 && 1 <= l.exec.session.policy.minimumStartSamples
              && l.exec.session.policy.minimumStartSamples == s.terms[0] as int + 256 * (s.terms[1] as int)
              && forall i :: 0 <= i < |l.plan| ==> Since(base, l.plan[i].tick) < TWO_31
  {
  }

  lemma ReachIs(base: u32, s: Story, first: Setpoint, now: u32, pos: Vec, policy: Policy)
    requires TermsAre(s.terms, policy) && Since(base, now) < Since(base, first.tick) < TWO_31
    ensures AnchorReaches(first, now, pos, policy.maximumStep)
       <==> InReach(s, first, pos, Since(base, first.tick) - Since(base, now))
  {
    var d := Since(base, first.tick) - Since(base, now);
    HalfWindow(base, first.tick, now);
    var n := (d + 4) / 5;
    assert RoundUp(d) / 5 == n && Add32(Sub32(first.tick, now), 4) / 5 == n;
    forall j | 0 <= j < JOINT_COUNT
      ensures policy.maximumStep[j] * n == AsI32(Word(s.terms, 72 + 4 * j)) * n
    {
    }
  }

  // ---- The clock ----

  /** Before the start a step waits, after the end it is refused, and neither
      changes anything. */
  lemma IdleSteps(e: Executor, now: u32)
    requires Sound(e) && e.diag.state != Running
    ensures ExecStep(e, now) == (e, if e.diag.state == Priming then Waiting else BadState, None)
  {
  }

  /** A clock that goes back before the start stops the stream. */
  lemma StepBeforeStart(e: Executor, start: u32, pos: Vec, now: u32)
    requires ExecStart(e, start, pos).1 == Done && HostTickAfter(start, now)
    ensures Stops(ExecStep(ExecStart(e, start, pos).0, now), Aborted, InvalidTimeline, now)
  {
    hide WithinLimits, AnchorReaches;
    TickOrdersAgree(start, now);
  }

  /** And so does one that goes back before the last step. */
  lemma StepBeforeLast(e: Executor, last: u32, now: u32)
    requires Sound(e) && ExecStep(e, last).0.diag.state == Running && HostTickAfter(last, now)
    ensures Stops(ExecStep(ExecStep(e, last).0, now), Aborted, InvalidTimeline, now)
  {
    hide ExecStep;
    TickOrdersAgree(last, now);
    StepKeeps(e, last);
    StepLeaves(e, last);
    BackwardStops(ExecStep(e, last).0, now);
  }

  lemma BackwardStops(e: Executor, now: u32)
    requires e.diag.state == Running && e.anchorValid && e.lastStepValid && TickAfter(e.lastStepTick, now)
    ensures Stops(ExecStep(e, now), Aborted, InvalidTimeline, now)
  {
  }
}
