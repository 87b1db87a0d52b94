/** The executor as the wire and its own answers tell it. A reader who sees only
    the requests, what was answered to them and when, knows from them alone what
    the next step does. */
module ExecutorStory {
  import opened Words
  import opened Interpolation
  import opened StreamContract
  import opened StreamSession
  import opened StreamExecutor
  import opened ExecutorRuns
  import opened Timeline
  import opened PlanRefinement

  // ---- What the requests say ----

  /** What was agreed since the stream was opened: the bytes of the accepted
      open, the horizon and the epoch last written by an accepted request, when
      the last accepted batch came, and where and when the stream was started. */
  datatype Story = Story(terms: seq<u8>, horizon: u32, epoch: Option<u32>, command: Option<u32>,
                         start: Option<Setpoint>)

  const UNTOLD := Story([], 0, None, None, None)

  /** The little-endian word at `at` of a payload long enough to hold it. */
  function Word(payload: seq<u8>, at: nat): u32 {
    if at + 4 <= |payload|
    then (payload[at] as int) + 256 * (payload[at + 1] as int) + 65536 * (payload[at + 2] as int)
        + 16777216 * (payload[at + 3] as int)
    else 0
  }

  function Tell(s: Story, event: Event, answer: Result): Story {
    if answer != Done then s
    else
      match event
      case OpenEvent(payload, _) => Story(payload, Word(payload, 8), None, None, None)
      case AdmitEvent(payload, _, now) =>
        s.(horizon := Word(payload, 4), epoch := Some(Word(payload, 8)), command := Some(now))
      case StartEvent(now, pos) => s.(start := Some(Setpoint(now, pos)))
      case _ => s
  }

  function TellAll(s: Story, e: Executor, events: seq<Event>): Story
    decreases |events|
  {
    if events == [] then s
    else TellAll(Tell(s, events[0], Handle(e, events[0]).1), Handle(e, events[0]).0, events[1..])
  }

  // ---- What the executor keeps of it ----

  /** The policy in force is what the accepted open spells. */
  ghost predicate TermsAre(terms: seq<u8>, policy: Policy) {
    && |terms| == 120
    && policy.minimumStartSamples == (terms[0] as int) + 256 * (terms[1] as int) && policy.armMask == terms[2]
    && policy.minimumLeadMs == Word(terms, 4) && policy.maximumLeadMs == Word(terms, 12)
    && policy.commandTimeoutMs == Word(terms, 16) && policy.maximumApplyLatenessMs == Word(terms, 20)
    && forall j :: 0 <= j < JOINT_COUNT ==>
         && policy.trackingErrorLimit[j] == AsI32(Word(terms, 24 + 4 * j))
         && policy.maximumStep[j] == AsI32(Word(terms, 72 + 4 * j))
  }

  ghost predicate Told(s: Story, e: Executor) {
    && (e.diag.state != Closed ==> TermsAre(s.terms, e.session.policy) && e.session.horizonEndTick == s.horizon)
    && (e.diag.state == Closed <==> s.terms == [])
    && (if s.epoch.Some? then e.session.epochEstablished && e.session.arbiterEpoch == s.epoch.value
        else !e.session.epochEstablished)
    && (s.command.Some? ==> e.diag.lastCommandTick == s.command.value)
    && (e.session.samples != [] ==> s.command.Some?)
    && (e.diag.state == Closed || e.diag.state == Priming <==> s.start.None?)
    && (e.diag.state == Running ==> s.command.Some? && s.start.Some? && e.controlEpochTick == s.start.value.tick)
  }

  lemma PolicySpells(payload: seq<u8>)
    requires DecodePolicy(payload).Ok?
    ensures TermsAre(payload, DecodePolicy(payload).value)
    ensures DecodePolicy(payload).value.horizonEndTick == Word(payload, 8)
  {
  }

  lemma OpenTells(s: Story, e: Executor, payload: seq<u8>, now: u32)
    requires Told(s, e) && Sound(e)
    ensures Told(Tell(s, OpenEvent(payload, now), ExecOpen(e, payload, now).1), ExecOpen(e, payload, now).0)
  {
    hide TermsAre, ValidatePolicy, DecodePolicy, PolicyInForce, Word;
    RejectionNamesCause(payload);
    if ExecOpen(e, payload, now).1 == Done {
      PolicySpells(payload);
      TermsHaveLength(payload, DecodePolicy(payload).value);
    } else {
      RefusalChangesNoPlan(e, payload, Append, now);
    }
  }

  lemma RejectionNamesCause(payload: seq<u8>)
    ensures DecodePolicy(payload).Rejected? ==> DecodePolicy(payload).why != ContractOk
  {
  }

  lemma TermsHaveLength(terms: seq<u8>, policy: Policy)
    requires TermsAre(terms, policy)
    ensures terms != []
  {
  }

  lemma BatchSpells(payload: seq<u8>, kind: Kind)
    requires DecodeBatch(payload, kind).Ok?
    ensures DecodeBatch(payload, kind).value.horizonEndTick == Word(payload, 4)
    ensures DecodeBatch(payload, kind).value.arbiterEpoch == Word(payload, 8)
  {
  }

  lemma AdmitTells(s: Story, e: Executor, payload: seq<u8>, kind: Kind, now: u32)
    requires Told(s, e) && Sound(e)
    ensures Told(Tell(s, AdmitEvent(payload, kind, now), ExecAdmit(e, payload, kind, now).1),
                 ExecAdmit(e, payload, kind, now).0)
  {
    hide TermsAre, DecodeBatch, ExecAdmitBatch, PolicyInForce, Word;
    if (e.diag.state == Priming || e.diag.state == Running) && DecodeBatch(payload, kind).Ok? {
      DecodedBatch(payload, kind);
      BatchSpells(payload, kind);
      if ExecAdmitBatch(e, DecodeBatch(payload, kind).value, kind, now).1 == Done {
        AdmittedShape(e, DecodeBatch(payload, kind).value, kind, now);
      } else {
        RefusedShape(e, DecodeBatch(payload, kind).value, kind, now);
      }
    }
  }

  type Stepped = (Executor, Result, Option<Vec>)

  /** A step changes nothing of the terms, and ends or goes on. */
  lemma StepLeaves(e: Executor, now: u32)
    requires e.diag.state == Running ==> e.anchorValid
    ensures Leaves(e, ExecStep(e, now)) && ExecStep(e, now).0.controlEpochTick == e.controlEpochTick
    ensures ExecStep(e, now).0.diag.state == Running ==>
              ExecStep(e, now).0.lastStepTick == now && ExecStep(e, now).0.lastStepValid
  {
    hide StepRunning, TickAfter;
    if e.diag.state == Running {
      RunningLeaves(e.(lastStepTick := now, lastStepValid := true), now);
    }
  }

  ghost predicate Leaves(e: Executor, r: Stepped) {
    var after := r.0;
    && r.1 != Done && Terms(after.session) == Terms(e.session)
    && after.diag.lastCommandTick == e.diag.lastCommandTick
    && (after.session.samples != [] ==> e.session.samples != [])
    && (after.diag.state == e.diag.state || (e.diag.state == Running && after.diag.state !in {Closed, Priming}))
    && (after.session.samples == e.session.samples ==> after.anchor == e.anchor)
  }

  /** The same of one branch of a running step. */
  ghost predicate BranchLeaves(e: Executor, r: Stepped) {
    && Leaves(e, r) && r.0.controlEpochTick == e.controlEpochTick
    && r.0.lastStepTick == e.lastStepTick && r.0.lastStepValid == e.lastStepValid
  }

  lemma ApplyLeaves(e: Executor, now: u32, due: u32)
    requires e.diag.state == Running && e.session.samples != []
    ensures BranchLeaves(e, StepApply(e, now, due))
  {
    hide ApplyFirst, Sub32;
    FirstLeaves(e, Sub32(now, due));
  }

  lemma FirstLeaves(e: Executor, lateness: u32)
    requires e.session.samples != []
    ensures var e' := ApplyFirst(e, lateness);
            && Terms(e'.session) == Terms(e.session) && e'.session.samples != e.session.samples
            && e'.diag.lastCommandTick == e.diag.lastCommandTick && e'.diag.state == e.diag.state
            && e'.controlEpochTick == e.controlEpochTick
            && e'.lastStepTick == e.lastStepTick && e'.lastStepValid == e.lastStepValid
  {
    hide Add32;
  }

  lemma InterpolateLeaves(e: Executor, now: u32)
    requires e.diag.state == Running && e.session.samples != []
    ensures BranchLeaves(e, StepInterpolate(e, now))
  {
    hide LerpVec;
  }

  lemma RunningLeaves(e: Executor, now: u32)
    requires e.diag.state == Running
    ensures BranchLeaves(e, StepRunning(e, now))
  {
    hide StepApply, StepInterpolate, FirstControlTick, TickAfter, TimedOut;
    if e.session.samples != [] {
      ApplyLeaves(e, now, FirstControlTick(e.controlEpochTick, e.session.samples[0].tick));
      InterpolateLeaves(e, now);
    }
  }

  /** The parts of a session that only requests change. */
  function Terms(s: Session): Session {
    s.(samples := [])
  }

  lemma StepTells(s: Story, e: Executor, now: u32)
    requires Told(s, e) && Sound(e)
    ensures Told(Tell(s, StepEvent(now), ExecStep(e, now).1), ExecStep(e, now).0)
  {
    hide TermsAre, ExecStep;
    StepLeaves(e, now);
    var there, here := Terms(ExecStep(e, now).0.session), Terms(e.session);
    assert there.policy == ExecStep(e, now).0.session.policy && here.policy == e.session.policy;
    assert there.horizonEndTick == ExecStep(e, now).0.session.horizonEndTick;
    assert there.arbiterEpoch == ExecStep(e, now).0.session.arbiterEpoch;
    assert there.epochEstablished == ExecStep(e, now).0.session.epochEstablished;
  }

  lemma HandleTells(s: Story, e: Executor, event: Event)
    requires Told(s, e) && Sound(e)
    ensures Told(Tell(s, event, Handle(e, event).1), Handle(e, event).0)
  {
    hide ExecOpen, ExecAdmit, ExecStep, TermsAre, PolicyInForce, WithinLimits;
    match event
    case OpenEvent(payload, now) => OpenTells(s, e, payload, now);
    case AdmitEvent(payload, kind, now) => AdmitTells(s, e, payload, kind, now);
    case StepEvent(now) => StepTells(s, e, now);
    case StartEvent(now, pos) => StartTells(s, e, now, pos);
    case FeedbackEvent(now, joint, commanded, measured) =>
  }

  lemma StartTells(s: Story, e: Executor, now: u32, pos: Vec)
    requires Told(s, e) && Sound(e)
    ensures Told(Tell(s, StartEvent(now, pos), ExecStart(e, now, pos).1), ExecStart(e, now, pos).0)
  {
    hide TermsAre, PolicyInForce, WithinLimits, AnchorReaches;
  }

  // ---- Along a run ----

  /** A running executor starts its segment from the sample applied last, or
      from the pose it was started at, and its clock is behind the run's. */
  ghost predicate Anchored(base: u32, clock: u32, s: Story, l: Ledger) {
    && (s.command.Some? ==> Since(base, s.command.value) <= Since(base, clock))
    && (l.exec.diag.state == Running ==>
          && (l.applied == [] && s.start.Some? ==> l.exec.anchor == s.start.value)
          && Since(base, l.exec.anchor.tick) <= Since(base, clock)
          && Since(base, l.exec.lastStepTick) <= Since(base, clock))
  }

  /** What was applied, what is queued and what was agreed, all as told. */
  ghost predicate Follows(base: u32, clock: u32, s: Story, l: Ledger) {
    Refines(base, clock, l) && Told(s, l.exec) && Anchored(base, clock, s, l)
  }

  lemma StepAnchors(base: u32, clock: u32, s: Story, l: Ledger, now: u32)
    requires Follows(base, clock, s, l) && Timely(base, clock, l.exec.caps, StepEvent(now))
    ensures Anchored(base, now, s, Book(l, StepEvent(now)))
  {
    hide Sound, Told, ExecStep;
    RefinesIsSound(base, clock, l);
    RunningIsAnchored(l.exec);
    var e, after := l.exec, ExecStep(l.exec, now).0;
    StepShape(e, now);
    StepLeaves(e, now);
    if after.session != e.session {
      QueueOrdered(base, clock, l.applied, e.session.samples, l.plan);
      ControlTickOf(base, e.controlEpochTick, e.session.samples[0].tick);
      HalfWindow(base, FirstControlTick(e.controlEpochTick, e.session.samples[0].tick), now);
    }
  }

  lemma EventAnchors(base: u32, clock: u32, s: Story, l: Ledger, event: Event)
    requires Follows(base, clock, s, l) && Timely(base, clock, l.exec.caps, event)
    ensures Anchored(base, event.now, Tell(s, event, Handle(l.exec, event).1), Book(l, event))
  {
    hide Sound, Refines, Told, ExecStep, ExecOpen, ExecAdmit, TermsAre;
    match event
    case StepEvent(now) =>
      RefinesIsSound(base, clock, l);
      RunningIsAnchored(l.exec);
      StepLeaves(l.exec, now);
      StepAnchors(base, clock, s, l, now);
    case OpenEvent(payload, now) => OpenIdles(l.exec, payload, now);
    case AdmitEvent(payload, kind, now) => AdmitIdles(l.exec, payload, kind, now);
    case _ =>
  }

  lemma RunningIsAnchored(e: Executor)
    requires Sound(e)
    ensures e.diag.state == Running ==> e.anchorValid
  {
  }

  lemma OpenIdles(e: Executor, payload: seq<u8>, now: u32)
    ensures var (after, answer) := ExecOpen(e, payload, now);
            && (answer == Done ==> after.diag.state == Priming)
            && (answer != Done ==> after.diag.state == e.diag.state && after.anchor == e.anchor
                                   && after.lastStepTick == e.lastStepTick)
  {
    hide DecodePolicy, ValidatePolicy;
  }

  lemma AdmitIdles(e: Executor, payload: seq<u8>, kind: Kind, now: u32)
    ensures var after := ExecAdmit(e, payload, kind, now).0;
            after.diag.state == e.diag.state && after.anchor == e.anchor && after.lastStepTick == e.lastStepTick
  {
    hide DecodeBatch, ExecAdmitBatch;
    if (e.diag.state == Priming || e.diag.state == Running) && DecodeBatch(payload, kind).Ok? {
      DecodedBatch(payload, kind);
      if ExecAdmitBatch(e, DecodeBatch(payload, kind).value, kind, now).1 == Done {
        AdmittedShape(e, DecodeBatch(payload, kind).value, kind, now);
      } else {
        RefusedShape(e, DecodeBatch(payload, kind).value, kind, now);
      }
    }
  }

  lemma EventFollows(base: u32, clock: u32, s: Story, l: Ledger, event: Event)
    requires Follows(base, clock, s, l) && Timely(base, clock, l.exec.caps, event)
    ensures Follows(base, event.now, Tell(s, event, Handle(l.exec, event).1), Book(l, event))
    ensures Book(l, event).exec.caps == l.exec.caps
  {
    hide Refines, Told, Anchored, Tell, Handle;
    BookRefines(base, clock, l, event);
    RefinesIsSound(base, clock, l);
    HandleTells(s, l.exec, event);
    EventAnchors(base, clock, s, l, event);
  }

  lemma RefinesIsSound(base: u32, clock: u32, l: Ledger)
    requires Refines(base, clock, l)
    ensures Sound(l.exec)
  {
  }

  lemma {:induction false} RunsFollow(base: u32, clock: u32, s: Story, l: Ledger, events: seq<Event>)
    requires Follows(base, clock, s, l) && TimelyRun(base, clock, l.exec.caps, events)
    ensures Follows(base, EndClock(clock, events), TellAll(s, l.exec, events), BookAll(l, events))
    ensures BookAll(l, events).exec.caps == l.exec.caps
    decreases |events|
  {
    hide Follows, Timely, Tell, Handle;
    if events != [] {
      EventFollows(base, clock, s, l, events[0]);
      RunsFollow(base, events[0].now, Tell(s, events[0], Handle(l.exec, events[0]).1), Book(l, events[0]), events[1..]);
    }
  }

  /** A reset executor, what it did during the events, and what they tell. */
  function LedgerOf(caps: HardCaps, limits: Limits, events: seq<Event>): Ledger {
    BookAll(Ledger(ExecInit(caps, limits), [], []), events)
  }

  function StoryOf(caps: HardCaps, limits: Limits, events: seq<Event>): Story {
    TellAll(UNTOLD, ExecInit(caps, limits), events)
  }

  lemma RunsFollowFromReset(base: u32, caps: HardCaps, limits: Limits, events: seq<Event>)
    requires TimelyRun(base, base, caps, events)
    ensures var l := LedgerOf(caps, limits, events);
            && l.exec == Run(ExecInit(caps, limits), events) && l.exec.caps == caps
            && Follows(base, EndClock(base, events), StoryOf(caps, limits, events), l)
  {
    hide TimelyRun;
    InitIsSound(caps, limits);
    RunsFollow(base, base, UNTOLD, Ledger(ExecInit(caps, limits), [], []), events);
    BookIsRun(Ledger(ExecInit(caps, limits), [], []), events);
  }

  // ---- The next step ----

  /** The least whole number of control ticks that covers d ms. */
  function RoundUp(d: nat): (r: nat)
    ensures r % CONTROL_TICK_MS == 0 && d <= r < d + CONTROL_TICK_MS
  {
    (d + 4) / 5 * 5
  }

  /** The stream is over: stopped safely, with nothing dispatched. */
  ghost predicate Stops(r: Stepped, state: ExecState, reason: Reason, now: u32) {
    && r.1 == Terminal && Dispatched(r).None? && r.0.diag.state == state && r.0.diag.reason == reason
    && r.0.diag.safeStopRequired && r.0.diag.terminalTick == now
  }

  /** The stream goes on, and `v` goes to the servos. */
  ghost predicate Goes(r: Stepped, v: Vec) {
    r.1 == OutputReady && r.0.diag.state == Running && Dispatched(r) == Some(v)
  }

  /** The planned end: the last vector goes out, and no stop is asked for. */
  ghost predicate Completes(r: Stepped, v: Vec, now: u32) {
    && r.1 == Terminal && Dispatched(r) == Some(v) && r.0.diag.state == Succeeded
    && r.0.diag.reason == PlannedHorizon && !r.0.diag.safeStopRequired && r.0.diag.terminalTick == now
  }

  /** Where the current segment starts. */
  function From(s: Story, applied: seq<Setpoint>): Setpoint
    requires s.start.Some?
  {
    if applied == [] then s.start.value else applied[|applied| - 1]
  }

  /** `v` is the point the line from `from` to `next` has reached at `now`,
      truncated toward zero. */
  ghost predicate OnTheWay(base: u32, from: Setpoint, next: Setpoint, now: u32, v: Vec) {
    var elapsed, span := Since(base, now) - Since(base, from.tick), Since(base, next.tick) - Since(base, from.tick);
    0 <= elapsed <= span && 0 < span
    && forall j :: 0 <= j < JOINT_COUNT ==>
         v[j] == from.pos[j] + TruncDiv((next.pos[j] as int - from.pos[j]) * elapsed, span)
  }

  /** What a step does, from the story, the plan and the part of it that has
      been applied: a stream without a horizon stops once the last command is
      older than agreed; a stream with nothing left stops or rests; a sample
      goes out at the first control tick at or after its own, unless that is
      longer ago than agreed; before that, the line towards it. */
  ghost predicate StepTable(base: u32, s: Story, applied: seq<Setpoint>, plan: seq<Setpoint>, now: u32, r: Stepped)
    requires s.start.Some? && s.command.Some? && |applied| <= |plan|
  {
    var t := Since(base, now) as int;
    if s.horizon == 0 && t - Since(base, s.command.value) > Word(s.terms, 16) then Stops(r, Hold, CommandTimeout, now)
    else if |applied| == |plan| then
      if s.horizon == 0 then Goes(r, From(s, applied).pos) else Stops(r, Aborted, QueueUnderflow, now)
    else
      var next, start := plan[|applied|], s.start.value.tick;
      Since(base, start) <= Since(base, next.tick) &&
      var due := Since(base, start) + RoundUp(Since(base, next.tick) - Since(base, start));
      if due <= t then
        if t - due > Word(s.terms, 20) then Stops(r, Aborted, MissedApplyTick, now)
        else if s.horizon != 0 && next.tick == s.horizon && |plan| == |applied| + 1 then Completes(r, next.pos, now)
        else Goes(r, next.pos)
      else if Since(base, next.tick) < t then Stops(r, Aborted, InvalidTimeline, now)
      else exists v :: OnTheWay(base, From(s, applied), next, now, v) && Goes(r, v)
  }

  lemma DueTick(base: u32, start: u32, tick: u32, now: u32)
    requires Since(base, start) <= Since(base, tick) && Near(base, tick) && Since(base, now) < TWO_31
    ensures var due, c := Since(base, start) + RoundUp(Since(base, tick) - Since(base, start)),
                          FirstControlTick(start, tick);
            && Since(base, c) == due && (TickAfter(c, now) <==> Since(base, now) < due)
            && (due <= Since(base, now) ==> Sub32(now, c) == Since(base, now) - due)
  {
    ControlTickOf(base, start, tick);
    HalfWindow(base, FirstControlTick(start, tick), now);
  }

  lemma LerpOnTheWay(base: u32, from: Setpoint, next: Setpoint, now: u32)
    requires Since(base, from.tick) < Since(base, next.tick) < TWO_31
    requires Since(base, from.tick) <= Since(base, now) <= Since(base, next.tick)
    ensures 0 < Sub32(next.tick, from.tick) && Sub32(now, from.tick) <= Sub32(next.tick, from.tick)
    ensures OnTheWay(base, from, next, now,
                     LerpVec(from.pos, next.pos, Sub32(now, from.tick), Sub32(next.tick, from.tick)))
  {
    HalfWindow(base, now, from.tick);
    HalfWindow(base, next.tick, from.tick);
    forall j | 0 <= j < JOINT_COUNT
      ensures LerpVec(from.pos, next.pos, Sub32(now, from.tick), Sub32(next.tick, from.tick))[j]
           == from.pos[j] + TruncDiv((next.pos[j] as int - from.pos[j]) * Sub32(now, from.tick),
                                     Sub32(next.tick, from.tick))
    {
      LerpExact(from.pos[j], next.pos[j], Sub32(now, from.tick), Sub32(next.tick, from.tick));
    }
  }

  lemma TermsSay(terms: seq<u8>, policy: Policy)
    requires TermsAre(terms, policy)
    ensures policy.commandTimeoutMs == Word(terms, 16) && policy.maximumApplyLatenessMs == Word(terms, 20)
  {
  }

  /** The segment a running executor is in: from what it applied last, or its
      start, to the first sample queued. */
  lemma SegmentOf(base: u32, clock: u32, s: Story, l: Ledger)
    requires Follows(base, clock, s, l) && l.exec.diag.state == Running && l.exec.session.samples != []
    ensures var e, next := l.exec, l.exec.session.samples[0];
            && |l.applied| < |l.plan| && next == l.plan[|l.applied|] && s.start.Some?
            && e.anchor == From(s, l.applied) && Since(base, e.anchor.tick) < Since(base, next.tick)
            && Since(base, e.controlEpochTick) < Since(base, next.tick) && Near(base, next.tick)
            && (|l.plan| == |l.applied| + 1 <==> |e.session.samples| == 1)
  {
    hide Sound, TermsAre;
    var n, next := |l.applied|, l.exec.session.samples[0];
    assert l.plan[n] == next;
    if n > 0 {
      assert l.plan[n - 1] == l.applied[n - 1];
      assert Since(base, l.plan[n - 1].tick) < Since(base, l.plan[n].tick);
    }
  }

  /** The step through its open gates. */
  lemma GatesOpen(e: Executor, now: u32)
    requires e.diag.state == Running && e.anchorValid && !TickAfter(e.lastStepTick, now)
    requires !TickAfter(e.anchor.tick, now)
    ensures ExecStep(e, now) == StepRunning(e.(lastStepTick := now, lastStepValid := true), now)
  {
    hide StepRunning;
  }

  lemma ApplyOutcome(e: Executor, now: u32, due: u32)
    requires e.diag.state == Running && e.session.samples != [] && e.diag.reason == NoReason
    ensures var r, next := StepApply(e, now, due), e.session.samples[0];
            if Sub32(now, due) > e.session.policy.maximumApplyLatenessMs then Stops(r, Aborted, MissedApplyTick, now)
            else if e.session.horizonEndTick != 0 && next.tick == e.session.horizonEndTick && |e.session.samples| == 1
            then Completes(r, next.pos, now)
            else Goes(r, next.pos)
  {
  }

  lemma InterpolateOutcome(e: Executor, now: u32)
    requires e.diag.state == Running && e.session.samples != []
    ensures var next := e.session.samples[0];
            var span, elapsed := Sub32(next.tick, e.anchor.tick), Sub32(now, e.anchor.tick);
            if span == 0 || elapsed > span then Stops(StepInterpolate(e, now), Aborted, InvalidTimeline, now)
            else Goes(StepInterpolate(e, now), LerpVec(e.anchor.pos, next.pos, elapsed, span))
  {
    hide LerpVec;
  }

  /** The executor's decision in terms of its own fields. */
  lemma RunningOutcome(e: Executor, now: u32)
    requires e.diag.state == Running && e.diag.reason == NoReason
    ensures var r, queue, policy := StepRunning(e, now), e.session.samples, e.session.policy;
            if e.session.horizonEndTick == 0 && Sub32(now, e.diag.lastCommandTick) > policy.commandTimeoutMs then
              Stops(r, Hold, CommandTimeout, now)
            else if queue == [] then
              if e.session.horizonEndTick == 0 then Goes(r, e.anchor.pos) else Stops(r, Aborted, QueueUnderflow, now)
            else
              var due := FirstControlTick(e.controlEpochTick, queue[0].tick);
              if TickAfter(due, now) then r == StepInterpolate(e, now) else r == StepApply(e, now, due)
  {
    hide StepApply, StepInterpolate, FirstControlTick;
  }

  /** With samples queued and no timeout, the row of the table. */
  lemma QueuedRow(base: u32, clock: u32, s: Story, l: Ledger, now: u32)
    requires Follows(base, clock, s, l) && Timely(base, clock, l.exec.caps, StepEvent(now))
    requires l.exec.diag.state == Running && l.exec.session.samples != []
    requires s.start.Some? && s.command.Some? && |l.applied| <= |l.plan|
    requires !(s.horizon == 0 && Since(base, now) as int - Since(base, s.command.value) > Word(s.terms, 16))
    ensures StepTable(base, s, l.applied, l.plan, now, ExecStep(l.exec, now))
  {
    hide Sound, Refines, TermsAre, Told, OnTheWay, LerpVec, FirstControlTick, RoundUp, StepApply, StepInterpolate,
         StepRunning, ExecStep, Stops, Goes, Completes;
    var e := l.exec.(lastStepTick := now, lastStepValid := true);
    var next := e.session.samples[0];
    StepReady(base, clock, s, l, now);
    ReasonFree(base, clock, l);
    GatesOpen(l.exec, now);
    RunningOutcome(e, now);
    SegmentOf(base, clock, s, l);
    DueTick(base, e.controlEpochTick, next.tick, now);
    if TickAfter(FirstControlTick(e.controlEpochTick, next.tick), now) {
      InterpolateOutcome(e, now);
      HalfWindow(base, next.tick, e.anchor.tick);
      HalfWindow(base, now, e.anchor.tick);
      if Since(base, now) <= Since(base, next.tick) {
        LerpOnTheWay(base, e.anchor, next, now);
      }
    } else {
      ApplyOutcome(e, now, FirstControlTick(e.controlEpochTick, next.tick));
    }
  }

  lemma ReasonFree(base: u32, clock: u32, l: Ledger)
    requires Refines(base, clock, l) && l.exec.diag.state == Running
    ensures l.exec.diag.reason == NoReason
  {
  }

  /** The next step, in every run: whatever was opened, admitted, started,
      stepped and fed back in time before, a running executor does at its next
      step what the story says. */
  lemma NextStep(base: u32, clock: u32, s: Story, l: Ledger, now: u32)
    requires Follows(base, clock, s, l) && Timely(base, clock, l.exec.caps, StepEvent(now))
    requires l.exec.diag.state == Running
    ensures s.start.Some? && s.command.Some? && |l.applied| <= |l.plan|
    ensures StepTable(base, s, l.applied, l.plan, now, ExecStep(l.exec, now))
  {
    hide Sound, Refines, TermsAre, Told, StepApply, StepInterpolate, StepRunning, ExecStep, Stops, Goes, Completes,
         FirstControlTick, TickAfter, RoundUp;
    StepReady(base, clock, s, l, now);
    if l.exec.session.samples != []
       && !(s.horizon == 0 && Since(base, now) as int - Since(base, s.command.value) > Word(s.terms, 16)) {
      QueuedRow(base, clock, s, l, now);
    } else {
      ReasonFree(base, clock, l);
      GatesOpen(l.exec, now);
      RunningOutcome(l.exec.(lastStepTick := now, lastStepValid := true), now);
    }
  }

  /** The gates of a step in a timely run stand open. */
  lemma StepReady(base: u32, clock: u32, s: Story, l: Ledger, now: u32)
    requires Follows(base, clock, s, l) && Timely(base, clock, l.exec.caps, StepEvent(now))
    requires l.exec.diag.state == Running
    ensures var e, policy := l.exec, l.exec.session.policy;
            && e.anchorValid && !TickAfter(e.lastStepTick, now) && !TickAfter(e.anchor.tick, now)
            && Since(base, e.anchor.tick) <= Since(base, now)
            && s.start.Some? && s.command.Some? && e.controlEpochTick == s.start.value.tick
            && Sub32(now, e.diag.lastCommandTick) == Since(base, now) - Since(base, s.command.value)
            && e.session.horizonEndTick == s.horizon && policy.commandTimeoutMs == Word(s.terms, 16)
            && policy.maximumApplyLatenessMs == Word(s.terms, 20)
            && |l.applied| <= |l.plan| && (e.session.samples == [] <==> |l.applied| == |l.plan|)
            && (e.session.samples == [] ==> e.anchor == From(s, l.applied))
  {
    hide TermsAre, Ordered, GridOk;
    TermsSay(s.terms, l.exec.session.policy);
    HalfWindow(base, now, l.exec.lastStepTick);
    HalfWindow(base, now, l.exec.anchor.tick);
    HalfWindow(base, now, s.command.value);
  }
}
