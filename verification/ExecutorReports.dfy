/** What the executor's diagnostics report: the true counts, latenesses and
    tracking errors of the stream, kept beside it. */
module ExecutorReports {
  import opened Words
  import opened StreamContract
  import opened StreamSession
  import opened StreamExecutor
  import opened ExecutorRuns
  import opened Timeline
  import opened PlanRefinement
  import opened ExecutorStory

  /** One tracking check: its joint and the distance it found. */
  datatype Check = Check(joint: nat, error: nat)

  /** True counts since the open: samples accepted, splices, vectors written,
      the lateness of every sample applied, every tracking check, the longest
      the queue has been, and the vector written last. */
  datatype Tally = Tally(accepted: nat, splices: nat, written: nat, lateness: seq<int>, checks: seq<Check>, peak: nat,
                         last: Option<Vec>)

  const NOTHING := Tally(0, 0, 0, [], [], 0, None)

  /** The count byte of a batch. */
  function SampleCount(payload: seq<u8>): nat {
    if |payload| > 16 then payload[16] else 0
  }

  function Distance(a: int, b: int): nat {
    if a < b then b - a else a - b
  }

  /** How long after its control tick a sample went out, on the grid of the
      start. */
  function LateBy(s: Story, tick: u32, now: u32): int {
    if s.start.None? then 0
    else Sub32(now, s.start.value.tick) as int - RoundUp(Sub32(tick, s.start.value.tick))
  }

  function Count(t: Tally, s: Story, l: Ledger, event: Event): Tally {
    var (after, answer) := Handle(l.exec, event);
    match event
    case OpenEvent(_, _) => if answer == Done then NOTHING else t
    case AdmitEvent(payload, kind, _) =>
      if answer == Done then
        var depth := |Book(l, event).plan| - |l.applied|;
        t.(accepted := t.accepted + SampleCount(payload), splices := t.splices + if kind == Splice then 1 else 0,
           peak := if depth > t.peak then depth else t.peak)
      else t
    case StepEvent(now) =>
      var applied := AppliedBy(l.exec, event);
      var out := ExecStep(l.exec, now).2;
      t.(written := t.written + if out.Some? then 1 else 0, last := if out.Some? then out else t.last,
         lateness := if applied != [] then t.lateness + [LateBy(s, applied[0].tick, now)] else t.lateness)
    case FeedbackEvent(_, joint, commanded, measured) =>
      if answer == Done || answer == Terminal then 
        t.(checks := t.checks + [Check(joint, Distance(commanded, measured))])
      else t
    case StartEvent(_, _) => t
  }

  // ---- Largest values ----

  function Largest(xs: seq<int>): (m: int)
    ensures forall i :: 0 <= i < |xs| ==> xs[i] <= m
    ensures xs == [] ==> m == 0
    ensures xs != [] ==> m == 0 || m in xs
    ensures 0 <= m
  {
    if xs == [] then 0
    else
      var front := Largest(xs[..|xs| - 1]);
      if xs[|xs| - 1] > front then xs[|xs| - 1] else front
  }

  function ErrorsOf(checks: seq<Check>, joint: nat): seq<int> {
    if checks == [] then []
    else
      var front := ErrorsOf(checks[..|checks| - 1], joint);
      if checks[|checks| - 1].joint == joint then front + [checks[|checks| - 1].error] else front
  }

  lemma LargestMore(xs: seq<int>, x: int)
    ensures Largest(xs + [x]) == if x > Largest(xs) then x else Largest(xs)
  {
    assert (xs + [x])[..|xs|] == xs;
  }

  lemma ErrorsMore(checks: seq<Check>, c: Check, joint: nat)
    ensures Largest(ErrorsOf(checks + [c], joint))
         == if c.joint == joint && c.error > Largest(ErrorsOf(checks, joint)) then c.error
            else Largest(ErrorsOf(checks, joint))
  {
    assert (checks + [c])[..|checks|] == checks;
    LargestMore(ErrorsOf(checks, joint), c.error);
  }

  // ---- The reports ----

  ghost predicate ErrorsReported(reported: seq<u32>, checks: seq<Check>) {
    && |reported| == JOINT_COUNT
    && forall j: nat :: j < JOINT_COUNT ==> reported[j] as int == Largest(ErrorsOf(checks, j))
  }

  /** Every statistic is the true one; the 32-bit counters wrap. */
  ghost predicate Shows(t: Tally, applied: nat, depth: int, d: Diagnostics, allowed: u32) {
    && d.accepted as int == t.accepted % TWO_32 && d.splices as int == t.splices % TWO_32
    && d.applied as int == applied % TWO_32 && d.outputs as int == t.written % TWO_32
    && |t.lateness| == applied && d.maximumLateness as int == Largest(t.lateness)
    && (forall i :: 0 <= i < |t.lateness| ==> 0 <= t.lateness[i] <= allowed)
    && ErrorsReported(d.maximumTrackingError, t.checks)
    && d.queued == depth && d.peakQueued == t.peak
  }

  ghost predicate Reported(t: Tally, l: Ledger) {
    && Shows(t, |l.applied|, |l.plan| - |l.applied|, l.exec.diag, l.exec.session.policy.maximumApplyLatenessMs)
    && (l.exec.outputValid <==> t.written > 0) && (t.written > 0 ==> t.last == Some(l.exec.lastOutput))
  }

  /** Another vector is written, or none. */
  lemma ShowsWritten(t: Tally, applied: nat, depth: int, d: Diagnostics, allowed: u32, out: Option<Vec>,
      after: Diagnostics)
    requires Shows(t, applied, depth, d, allowed)
    requires after.accepted == d.accepted && after.splices == d.splices && after.applied == d.applied
    requires after.maximumLateness == d.maximumLateness && after.maximumTrackingError == d.maximumTrackingError
    requires after.queued == d.queued && after.peakQueued == d.peakQueued
    requires after.outputs == (if out.Some? then Add32(d.outputs, 1) else d.outputs)
    ensures Shows(t.(written := t.written + if out.Some? then 1 else 0, last := if out.Some? then out else t.last),
                  applied, depth, after, allowed)
  {
    hide ErrorsReported;
    Wraps(t.written, d.outputs, 1);
  }

  /** A sample is applied, `late` ms after its control tick. */
  lemma ShowsTaken(t: Tally, applied: nat, depth: nat, d: Diagnostics, allowed: u32, out: Vec, late: u32,
                   after: Diagnostics)
    requires Shows(t, applied, depth, d, allowed) && 0 < depth <= t.peak && late <= allowed
    requires after.accepted == d.accepted && after.splices == d.splices
    requires after.maximumTrackingError == d.maximumTrackingError
    requires after.applied == Add32(d.applied, 1) && after.outputs == Add32(d.outputs, 1)
    requires after.maximumLateness == (if late > d.maximumLateness then late else d.maximumLateness)
    requires after.queued == depth - 1
    requires after.peakQueued == (if after.queued > d.peakQueued then after.queued else d.peakQueued)
    ensures Shows(t.(written := t.written + 1, last := Some(out), lateness := t.lateness + [late]),
                  applied + 1, depth - 1, after, allowed)
  {
    hide ErrorsReported, Largest;
    Wraps(t.written, d.outputs, 1);
    Wraps(applied, d.applied, 1);
    LargestMore(t.lateness, late);
  }

  /** A batch of n samples is accepted. */
  lemma ShowsAccepted(t: Tally, applied: nat, depth: int, d: Diagnostics, allowed: u32, n: u32, splice: bool, now: int,
                      after: Diagnostics)
    requires Shows(t, applied, depth, d, allowed)
    requires after.applied == d.applied && after.outputs == d.outputs && after.maximumLateness == d.maximumLateness
    requires after.maximumTrackingError == d.maximumTrackingError
    requires after.accepted == Add32(d.accepted, n)
    requires after.splices == (if splice then Add32(d.splices, 1) else d.splices)
    requires after.queued == now
    requires after.peakQueued == (if after.queued > d.peakQueued then after.queued else d.peakQueued)
    ensures Shows(t.(accepted := t.accepted + n, splices := t.splices + if splice then 1 else 0,
                     peak := if now > t.peak then now else t.peak), applied, now, after, allowed)
  {
    hide ErrorsReported;
    Wraps(t.accepted, d.accepted, n);
    Wraps(t.splices, d.splices, 1);
  }

  lemma Wraps(count: nat, shown: u32, more: u32)
    requires shown as int == count % TWO_32
    ensures Add32(shown, more) as int == (count + more) % TWO_32
  {
    var q := count / TWO_32;
    assert count == q * TWO_32 + shown;
    if shown + more < TWO_32 {
      assert (count + more) / TWO_32 == q;
    } else {
      assert count + more == (q + 1) * TWO_32 + (shown + more - TWO_32);
    }
  }

  lemma OpenReports(t: Tally, s: Story, l: Ledger, payload: seq<u8>, now: u32)
    requires Reported(t, l)
    ensures Reported(Count(t, s, l, OpenEvent(payload, now)), Book(l, OpenEvent(payload, now)))
  {
    hide Shows;
    OpenCounts(l.exec, payload, now);
    assert l.applied + [] == l.applied;
    if ExecOpen(l.exec, payload, now).1 == Done {
      FreshShows(ExecOpen(l.exec, payload, now).0.diag,
        ExecOpen(l.exec, payload, now).0.session.policy.maximumApplyLatenessMs);
    } else {
      ShowsWritten(t, |l.applied|, |l.plan| - |l.applied|, l.exec.diag, l.exec.session.policy.maximumApplyLatenessMs,
                   None, ExecOpen(l.exec, payload, now).0.diag);
    }
  }

  /** What an open does to the statistics. */
  lemma OpenCounts(e: Executor, payload: seq<u8>, now: u32)
    ensures var (after, answer) := ExecOpen(e, payload, now);
            && (answer == Done ==>
                  && !after.outputValid
                  && after.diag == FreshDiagnostics(ExecState.Priming, after.diag.lastStatus, after.diag.lastContract))
            && (answer != Done ==>
                  && after.session == e.session && after.outputValid == e.outputValid
                       && after.lastOutput == e.lastOutput
                  && after.diag == e.diag.(lastStatus := after.diag.lastStatus,
                       lastContract := after.diag.lastContract))
  {
    hide DecodePolicy, ValidatePolicy;
    RejectionNamesCause(payload);
  }

  lemma FreshShows(d: Diagnostics, allowed: u32)
    requires d == FreshDiagnostics(ExecState.Priming, d.lastStatus, d.lastContract)
    ensures Shows(NOTHING, 0, 0, d, allowed)
  {
  }

  lemma AdmitReports(base: u32, clock: u32, t: Tally, s: Story, l: Ledger, payload: seq<u8>, kind: Kind, now: u32)
    requires Reported(t, l) && Follows(base, clock, s, l)
    requires Timely(base, clock, l.exec.caps, AdmitEvent(payload, kind, now))
    ensures Reported(Count(t, s, l, AdmitEvent(payload, kind, now)), Book(l, AdmitEvent(payload, kind, now)))
  {
    hide DecodeBatch, ExecAdmitBatch, Refines, Told, Timely, Anchored, AppliedBy, ExecAdmit, Shows;
    var event, allowed := AdmitEvent(payload, kind, now), l.exec.session.policy.maximumApplyLatenessMs;
    var after := Book(l, event);
    BookRefines(base, clock, l, event);
    DepthReported(base, now, after);
    assert l.applied + [] == l.applied;
    NothingApplied(l.exec, event);
    AdmitCounts(l.exec, payload, kind, now);
    if Handle(l.exec, event).1 == Done {
      ShowsAccepted(t, |l.applied|, |l.plan| - |l.applied|, l.exec.diag, allowed, SampleCount(payload), kind == Splice,
                    |after.plan| - |l.applied|, after.exec.diag);
    } else {
      ShowsWritten(t, |l.applied|, |l.plan| - |l.applied|, l.exec.diag, allowed, None, after.exec.diag);
    }
  }

  lemma NothingApplied(e: Executor, event: Event)
    ensures !event.StepEvent? ==> AppliedBy(e, event) == []
  {
  }

  /** What an admission does to the statistics. */
  lemma AdmitCounts(e: Executor, payload: seq<u8>, kind: Kind, now: u32)
    ensures var (after, answer) := ExecAdmit(e, payload, kind, now);
            var before, d := e.diag, after.diag;
            && after.session.policy == e.session.policy && after.outputValid == e.outputValid
            && after.lastOutput == e.lastOutput && d.applied == before.applied && d.outputs == before.outputs
            && d.maximumLateness == before.maximumLateness && d.maximumTrackingError == before.maximumTrackingError
            && (answer != Done ==>
                  && after.session == e.session && d.accepted == before.accepted && d.splices == before.splices
                  && d.queued == before.queued && d.peakQueued == before.peakQueued)
            && (answer == Done ==>
                  && DecodeBatch(payload, kind).Ok? && SampleCount(payload) < 10
                  && d.accepted == Add32(before.accepted, SampleCount(payload))
                  && d.splices == (if kind == Splice then Add32(before.splices, 1) else before.splices)
                  && d.queued == |after.session.samples|
                  && d.peakQueued == (if d.queued > before.peakQueued then d.queued else before.peakQueued))
  {
    hide DecodeBatch, ExecAdmitBatch;
    if (e.diag.state == Priming || e.diag.state == Running) && DecodeBatch(payload, kind).Ok? {
      DecodedBatch(payload, kind);
      CountByte(payload, kind);
      if ExecAdmitBatch(e, DecodeBatch(payload, kind).value, kind, now).1 == Done {
        AdmittedShape(e, DecodeBatch(payload, kind).value, kind, now);
      } else {
        RefusedShape(e, DecodeBatch(payload, kind).value, kind, now);
      }
    }
  }

  lemma DepthReported(base: u32, clock: u32, l: Ledger)
    requires Refines(base, clock, l)
    ensures |l.exec.session.samples| == |l.plan| - |l.applied| && |l.applied| <= |l.plan|
  {
    hide Sound, Ordered, GridOk, AnchorOk;
  }

  lemma CountByte(payload: seq<u8>, kind: Kind)
    requires DecodeBatch(payload, kind).Ok?
    ensures |DecodeBatch(payload, kind).value.samples| == SampleCount(payload)
  {
  }

  /** A step that takes no sample: at most one more vector written. */
  ghost predicate OnlyWrites(e: Executor, r: Stepped) {
    var before, d := e.diag, r.0.diag;
    && r.0.session == e.session && d.accepted == before.accepted && d.splices == before.splices
    && d.maximumTrackingError == before.maximumTrackingError
    && d.outputs == (if r.2.Some? then Add32(before.outputs, 1) else before.outputs)
    && (r.0.outputValid <==> e.outputValid || r.2.Some?)
    && r.0.lastOutput == (if r.2.Some? then r.2.value else e.lastOutput)
    && d.applied == before.applied && d.maximumLateness == before.maximumLateness
    && d.queued == before.queued && d.peakQueued == before.peakQueued
  }

  /** A step that takes the first sample, `late` ms after its control tick. */
  ghost predicate TakesFirst(e: Executor, r: Stepped, late: u32) {
    var before, d := e.diag, r.0.diag;
    && e.session.samples != [] && r.2.Some? && late <= e.session.policy.maximumApplyLatenessMs
    && r.0.session == e.session.(samples := e.session.samples[1..])
    && d.accepted == before.accepted && d.splices == before.splices
    && d.maximumTrackingError == before.maximumTrackingError
    && d.outputs == Add32(before.outputs, 1) && r.0.outputValid && r.0.lastOutput == r.2.value
    && d.maximumLateness == (if late > before.maximumLateness then late else before.maximumLateness)
    && d.applied == Add32(before.applied, 1) && d.queued == |e.session.samples| - 1
    && d.peakQueued == (if d.queued > before.peakQueued then d.queued else before.peakQueued)
  }

  lemma ApplyCounts(e: Executor, now: u32, due: u32)
    requires e.session.samples != []
    ensures var r := StepApply(e, now, due);
            if Sub32(now, due) > e.session.policy.maximumApplyLatenessMs then OnlyWrites(e, r)
            else TakesFirst(e, r, Sub32(now, due))
  {
    hide Sub32;
  }

  /** What a step does to the statistics. */
  lemma StepCounts(e: Executor, now: u32)
    ensures var r, queue := ExecStep(e, now), e.session.samples;
            || OnlyWrites(e, r)
            || (&& e.diag.state == Running && queue != []
                && var c := FirstControlTick(e.controlEpochTick, queue[0].tick);
                   !TickAfter(c, now) && TakesFirst(e, r, Sub32(now, c)))
  {
    hide LerpVec, TimedOut, FirstControlTick, TickAfter, Sub32, StepApply, OnlyWrites, TakesFirst;
    var e' := e.(lastStepTick := now, lastStepValid := true);
    var queue := e.session.samples;
    if queue != [] {
      ApplyCounts(e', now, FirstControlTick(e.controlEpochTick, queue[0].tick));
      InterpolateCounts(e', now);
    }
    StepBranches(e, now);
    SameStatistics(e, e', ExecStep(e, now));
  }

  lemma InterpolateCounts(e: Executor, now: u32)
    requires e.session.samples != []
    ensures OnlyWrites(e, StepInterpolate(e, now))
  {
    hide LerpVec;
  }

  /** The statistics do not depend on when the last step was. */
  lemma SameStatistics(e: Executor, e': Executor, r: Stepped)
    requires e' == e.(lastStepTick := e'.lastStepTick, lastStepValid := e'.lastStepValid)
    ensures OnlyWrites(e', r) ==> OnlyWrites(e, r)
    ensures forall late: u32 :: TakesFirst(e', r, late) ==> TakesFirst(e, r, late)
  {
  }

  lemma StepBranches(e: Executor, now: u32)
    ensures var r, queue := ExecStep(e, now), e.session.samples;
            var e' := e.(lastStepTick := now, lastStepValid := true);
            || OnlyWrites(e, r) || OnlyWrites(e', r)
            || (&& e.diag.state == Running && queue != []
                && var c := FirstControlTick(e.controlEpochTick, queue[0].tick);
                   if TickAfter(c, now) then r == StepInterpolate(e', now) else r == StepApply(e', now, c))
  {
    hide LerpVec, FirstControlTick, TickAfter, Sub32, StepApply, StepInterpolate;
  }

  /** A step takes the first sample or none. */
  lemma Takes(e: Executor, now: u32)
    ensures OnlyWrites(e, ExecStep(e, now)) ==> AppliedBy(e, StepEvent(now)) == []
    ensures forall late: u32 :: TakesFirst(e, ExecStep(e, now), late) ==>
              AppliedBy(e, StepEvent(now)) == [e.session.samples[0]]
  {
    hide ExecStep;
    assert e.session.samples != [] ==> e.session.samples[..1] == [e.session.samples[0]];
  }

  lemma StepReports(base: u32, clock: u32, t: Tally, s: Story, l: Ledger, now: u32)
    requires Reported(t, l) && Follows(base, clock, s, l) && Timely(base, clock, l.exec.caps, StepEvent(now))
    ensures Reported(Count(t, s, l, StepEvent(now)), Book(l, StepEvent(now)))
  {
    hide Told, Refines, ExecStep, FirstControlTick, Sub32, TickAfter, RoundUp, Timely, Anchored, Handle, Sound,
         AppliedBy, Shows;
    var e, event, r := l.exec, StepEvent(now), ExecStep(l.exec, now);
    var allowed, depth := e.session.policy.maximumApplyLatenessMs, |l.plan| - |l.applied|;
    StepIs(e, now);
    StepCounts(e, now);
    Takes(e, now);
    BookRefines(base, clock, l, event);
    DepthReported(base, clock, l);
    SoundDepth(base, clock, l);
    if OnlyWrites(e, r) {
      assert l.applied + [] == l.applied;
      ShowsWritten(t, |l.applied|, depth, e.diag, allowed, r.2, r.0.diag);
    } else {
      var next := e.session.samples[0];
      var late := Sub32(now, FirstControlTick(e.controlEpochTick, next.tick));
      LateIs(base, clock, s, l, now);
      PeakOf(t, |l.applied|, depth, e.diag, allowed);
      ShowsTaken(t, |l.applied|, depth, e.diag, allowed, r.2.value, late, r.0.diag);
    }
  }

  lemma PeakOf(t: Tally, applied: nat, depth: int, d: Diagnostics, allowed: u32)
    requires Shows(t, applied, depth, d, allowed)
    ensures d.queued == depth && d.peakQueued == t.peak
  {
  }

  lemma StepIs(e: Executor, now: u32)
    ensures Handle(e, StepEvent(now)) == (ExecStep(e, now).0, ExecStep(e, now).1)
  {
  }

  lemma SoundDepth(base: u32, clock: u32, l: Ledger)
    requires Refines(base, clock, l)
    ensures l.exec.diag.queued == |l.exec.session.samples| <= l.exec.diag.peakQueued
  {
  }

  /** The lateness of the sample applied, on the grid of the start. */
  lemma LateIs(base: u32, clock: u32, s: Story, l: Ledger, now: u32)
    requires Follows(base, clock, s, l) && Timely(base, clock, l.exec.caps, StepEvent(now))
    requires l.exec.diag.state == Running && l.exec.session.samples != []
    requires var e := l.exec; !TickAfter(FirstControlTick(e.controlEpochTick, e.session.samples[0].tick), now)
    ensures s.start.Some?
    ensures var e := l.exec;
            LateBy(s, e.session.samples[0].tick, now)
            == Sub32(now, FirstControlTick(e.controlEpochTick, e.session.samples[0].tick))
  {
    hide Refines, TermsAre, FirstControlTick;
    var e, next := l.exec, l.exec.session.samples[0];
    StepReady(base, clock, s, l, now);
    SegmentOf(base, clock, s, l);
    DueTick(base, e.controlEpochTick, next.tick, now);
    HalfWindow(base, next.tick, e.controlEpochTick);
    HalfWindow(base, now, e.controlEpochTick);
  }

  lemma FeedbackReports(t: Tally, s: Story, l: Ledger, now: u32, joint: nat, commanded: i32, measured: i32)
    requires Reported(t, l)
    ensures var event := FeedbackEvent(now, joint, commanded, measured);
            Reported(Count(t, s, l, event), Book(l, event))
  {
    hide Shows;
    var e, allowed := l.exec, l.exec.session.policy.maximumApplyLatenessMs;
    var (after, answer) := ExecJointFeedback(e, now, joint, commanded, measured);
    assert l.applied + [] == l.applied;
    if answer == Done || answer == Terminal {
      ShowsChecked(t, |l.applied|, |l.plan| - |l.applied|, e.diag, allowed, joint, Distance(commanded, measured),
          after.diag);
    } else {
      ShowsWritten(t, |l.applied|, |l.plan| - |l.applied|, e.diag, allowed, None, after.diag);
    }
  }

  /** A tracking check is noted. */
  lemma ShowsChecked(t: Tally, applied: nat, depth: int, d: Diagnostics, allowed: u32, joint: nat, error: u32,
                     after: Diagnostics)
    requires Shows(t, applied, depth, d, allowed) && joint < JOINT_COUNT
    requires after.accepted == d.accepted && after.splices == d.splices && after.applied == d.applied
    requires after.maximumLateness == d.maximumLateness && after.outputs == d.outputs
    requires after.queued == d.queued && after.peakQueued == d.peakQueued
    requires after.maximumTrackingError == NoteError(d, joint, error).maximumTrackingError
    ensures Shows(t.(checks := t.checks + [Check(joint, error)]), applied, depth, after, allowed)
  {
    var c := Check(joint, error);
    forall j: nat | j < JOINT_COUNT
      ensures after.maximumTrackingError[j] as int == Largest(ErrorsOf(t.checks + [c], j))
    {
      ErrorsMore(t.checks, c, j);
    }
  }

  lemma CountReports(base: u32, clock: u32, t: Tally, s: Story, l: Ledger, event: Event)
    requires Reported(t, l) && Follows(base, clock, s, l) && Timely(base, clock, l.exec.caps, event)
    ensures Reported(Count(t, s, l, event), Book(l, event))
  {
    hide Reported, Follows, Timely, Count, Book;
    match event
    case OpenEvent(payload, now) => OpenReports(t, s, l, payload, now);
    case AdmitEvent(payload, kind, now) => AdmitReports(base, clock, t, s, l, payload, kind, now);
    case StepEvent(now) => StepReports(base, clock, t, s, l, now);
    case StartEvent(now, pos) => StartReports(t, s, l, now, pos);
    case FeedbackEvent(now, joint, commanded, measured) => FeedbackReports(t, s, l, now, joint, commanded, measured);
  }

  lemma StartReports(t: Tally, s: Story, l: Ledger, now: u32, pos: Vec)
    requires Reported(t, l)
    ensures Reported(Count(t, s, l, StartEvent(now, pos)), Book(l, StartEvent(now, pos)))
  {
    hide WithinLimits, AnchorReaches, Shows;
    assert l.applied + [] == l.applied;
    ShowsWritten(t, |l.applied|, |l.plan| - |l.applied|, l.exec.diag, l.exec.session.policy.maximumApplyLatenessMs,
                 None, ExecStart(l.exec, now, pos).0.diag);
  }

  function CountAll(t: Tally, s: Story, l: Ledger, events: seq<Event>): Tally
    decreases |events|
  {
    if events == [] then t
    else CountAll(Count(t, s, l, events[0]), Tell(s, events[0], Handle(l.exec, events[0]).1), Book(l, events[0]),
                  events[1..])
  }

  /** Along every timely run the statistics are the true ones: samples accepted,
      applied and spliced, vectors written, the worst lateness against the
      control tick of each sample, the worst tracking error of each joint, and
      how long the queue is and has been. */
  lemma {:induction false} RunsReport(base: u32, clock: u32, t: Tally, s: Story, l: Ledger, events: seq<Event>)
    requires Reported(t, l) && Follows(base, clock, s, l) && TimelyRun(base, clock, l.exec.caps, events)
    ensures Reported(CountAll(t, s, l, events), BookAll(l, events))
    decreases |events|
  {
    hide Reported, Follows, Timely, Count, Tell, Book, Handle;
    if events != [] {
      CountReports(base, clock, t, s, l, events[0]);
      EventFollows(base, clock, s, l, events[0]);
      RunsReport(base, events[0].now, Count(t, s, l, events[0]), Tell(s, events[0], Handle(l.exec, events[0]).1),
                 Book(l, events[0]), events[1..]);
    }
  }

  // ---- Tracking ----

  /** A tracking check counts once something has been written to a stream that
      runs or has succeeded; it aborts the stream, safely, exactly when the
      distance exceeds what the open agreed for that joint. */
  lemma FeedbackDecides(base: u32, clock: u32, t: Tally, s: Story, l: Ledger, now: u32, joint: nat, commanded: i32,
                        measured: i32)
    requires Reported(t, l) && Follows(base, clock, s, l)
    ensures var (after, answer) := ExecJointFeedback(l.exec, now, joint, commanded, measured);
            var counts := joint < JOINT_COUNT && l.exec.diag.state in {Running, Succeeded} && t.written > 0;
            && (answer == BadState <==> !counts) && (answer == BadState ==> after == l.exec)
            && (answer == Terminal <==>
                  counts && Distance(commanded, measured) > AsI32(Word(s.terms, 24 + 4 * joint)))
            && (answer == Terminal ==>
                  && after.diag.state == Aborted && after.diag.reason == TrackingError && after.diag.safeStopRequired
                  && after.diag.trackingErrorJoint == joint && after.diag.terminalTick == now)
            && (answer != Terminal ==> after.diag.state == l.exec.diag.state)
  {
    hide PlanOk, GridOk, AnchorOk, Shows;
  }
}
