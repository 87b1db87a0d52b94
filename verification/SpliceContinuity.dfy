/** A splice keeps the plan before its tick and bends the trajectory before it
    by at most one count more than the jump it makes at its tick. */
module SpliceContinuity {
  import opened Words
  import opened Interpolation
  import opened StreamContract
  import opened StreamSession
  import opened Timeline

  /** The batch went in. */
  predicate Accepted(reply: Reply) {
    reply.status == ValidationOnly && reply.contract == ContractOk
  }

  /** Two vectors differ on each joint by at most one more than `jump` allows. */
  ghost predicate WithinJump(a: Vec, b: Vec, target: Vec, point: Vec) {
    forall j :: 0 <= j < JOINT_COUNT ==> AbsDiff(a[j], b[j]) <= AbsDiff(target[j], point[j]) + 1
  }

  lemma SegmentBend(a: Vec, b: Vec, span: u32, cut: u32, target: Vec, e: u32)
    requires 0 < cut <= span && e <= cut
    ensures WithinJump(LerpVec(a, target, e, cut), LerpVec(a, b, e, span), target, LerpVec(a, b, cut, span))
  {
    forall j | 0 <= j < JOINT_COUNT
      ensures AbsDiff(LerpVec(a, target, e, cut)[j], LerpVec(a, b, e, span)[j])
           <= AbsDiff(target[j], LerpVec(a, b, cut, span)[j]) + 1
    {
      LerpExact(a[j], target[j], e, cut);
      LerpExact(a[j], b[j], e, span);
      LerpExact(a[j], b[j], cut, span);
      SpliceSegment(a[j], b[j], span, cut, target[j], e, AbsDiff(target[j], LerpVec(a, b, cut, span)[j]));
    }
  }

  lemma EndOfSegment(a: Vec, b: Vec, span: u32)
    requires 0 < span
    ensures LerpVec(a, b, span, span) == b
  {
    forall j | 0 <= j < JOINT_COUNT
      ensures LerpVec(a, b, span, span)[j] == b[j]
    {
      LerpExact(a[j], b[j], span, span);
      IdealLerpBetween(a[j], b[j], span, span);
    }
  }

  /** The queue after a cut at `at` that leads on to `target`: the retained
      samples and the splice point. */
  function CutQueue(samples: seq<Setpoint>, at: u32, target: Vec): seq<Setpoint> {
    samples[..RetainedFrom(samples, at, 0)] + [Setpoint(at, target)]
  }

  /** Up to the cut, the trajectory bends by at most one more than the jump. */
  lemma CutBend(base: u32, samples: seq<Setpoint>, at: u32, target: Vec, t: u32)
    requires Ordered(base, samples) && Since(base, at) < TWO_31
    requires Interpolate(samples, at).Some?
    requires Since(base, samples[0].tick) <= Since(base, t) <= Since(base, at)
    ensures Interpolate(samples, t).Some? && Interpolate(CutQueue(samples, at, target), t).Some?
    ensures WithinJump(Interpolate(CutQueue(samples, at, target), t).value, Interpolate(samples, t).value,
                       target, Interpolate(samples, at).value)
  {
    var n := RetainedFrom(samples, at, 0);
    var cut := CutQueue(samples, at, target);
    RetainedExact(base, samples, at);
    InterpolateAnswers(base, samples, at);
    InterpolateAnswers(base, samples, t);
    OrderedSlice(base, samples, 0, n);
    OrderedConcat(base, samples[..n], [Setpoint(at, target)]);
    InterpolateAnswers(base, cut, t);
    var i := CoverExists(base, cut, t, n + 1);
    ScanFinds(base, cut, i, t, 0);
    if i < n {
      if i + 1 < n || samples[i].tick == t {
        assert cut[i] == samples[i] && (i + 1 < n ==> cut[i + 1] == samples[i + 1]);
        assert Covers(base, samples, i, t);
        ScanFinds(base, samples, i, t, 0);
      } else {
        LastSegment(base, samples, at, target, t, n);
      }
    } else {
      assert t == at;
    }
  }

  /** The one segment that changes: from the last retained sample. */
  lemma LastSegment(base: u32, samples: seq<Setpoint>, at: u32, target: Vec, t: u32, n: nat)
    requires Ordered(base, samples) && Since(base, at) < TWO_31
    requires 0 < n < |samples|
    requires Since(base, samples[n - 1].tick) < Since(base, t) < Since(base, at) <= Since(base, samples[n].tick)
    ensures Interpolate(samples, t).Some? && Interpolate(samples, at).Some?
    ensures samples[n - 1].tick != at
    ensures WithinJump(PointAt([samples[n - 1], Setpoint(at, target)], 0, t), Interpolate(samples, t).value,
                       target, Interpolate(samples, at).value)
  {
    var left, right := samples[n - 1], samples[n];
    var span, cut, e := Sub32(right.tick, left.tick), Sub32(at, left.tick), Sub32(t, left.tick);
    HalfWindow(base, right.tick, left.tick);
    HalfWindow(base, at, left.tick);
    HalfWindow(base, t, left.tick);
    assert Covers(base, samples, n - 1, t);
    ScanFinds(base, samples, n - 1, t, 0);
    if at == right.tick {
      assert Covers(base, samples, n, at);
      ScanFinds(base, samples, n, at, 0);
      EndOfSegment(left.pos, right.pos, span);
    } else {
      HalfWindow(base, right.tick, at);
      assert Covers(base, samples, n - 1, at);
      ScanFinds(base, samples, n - 1, at, 0);
    }
    SegmentBend(left.pos, right.pos, span, cut, target, e);
  }

  /** What an accepted splice does to the queue. */
  lemma AcceptedSplice(s: Session, batch: Batch, now: u32)
    requires Accepted(SessionAdmit(s, batch, Splice, now).1)
    ensures |batch.samples| > 0 && batch.samples[0].tick == batch.spliceAtTick
    ensures SessionAdmit(s, batch, Splice, now).0.samples
         == s.samples[..RetainedFrom(s.samples, batch.spliceAtTick, 0)] + batch.samples
    ensures Interpolate(s.samples, batch.spliceAtTick).Some?
    ensures WithinOneStep(batch.samples[0].pos, Interpolate(s.samples, batch.spliceAtTick).value, s.policy.maximumStep)
  {
    hide InterpolateFrom, Interpolate, StepsAllowed, WithinOneStep;
  }

  /** Splice continuity. An accepted splice at T keeps every queued sample
      before T, puts its own samples after them, and at every tick from the
      first queued sample up to T moves the interpolated trajectory by at most
      one more than the jump it makes at T. */
  lemma SpliceIsContinuous(s: Session, batch: Batch, now: u32, base: u32)
    requires Ordered(base, s.samples) && Since(base, batch.spliceAtTick) < TWO_31
    requires Accepted(SessionAdmit(s, batch, Splice, now).1)
    ensures var after := SessionAdmit(s, batch, Splice, now).0;
            var at := batch.spliceAtTick;
            var n := RetainedFrom(s.samples, at, 0);
            && after.samples == s.samples[..n] + batch.samples
            && (forall k :: 0 <= k < |s.samples| ==> (k < n <==> Since(base, s.samples[k].tick) < Since(base, at)))
            && Interpolate(s.samples, at).Some?
            && WithinOneStep(batch.samples[0].pos, Interpolate(s.samples, at).value, s.policy.maximumStep)
            && forall t: u32 :: Since(base, s.samples[0].tick) <= Since(base, t) <= Since(base, at) ==>
                 && Interpolate(s.samples, t).Some?
                 && Interpolate(after.samples, t).Some?
                 && WithinJump(Interpolate(after.samples, t).value, Interpolate(s.samples, t).value,
                               batch.samples[0].pos, Interpolate(s.samples, at).value)
  {
    hide InterpolateFrom, SessionAdmit, WithinOneStep, WithinJump, LerpVec;
    AcceptedSplice(s, batch, now);
    var after := SessionAdmit(s, batch, Splice, now).0;
    var at := batch.spliceAtTick;
    var n := RetainedFrom(s.samples, at, 0);
    RetainedExact(base, s.samples, at);
    InterpolateAnswers(base, s.samples, at);
    forall t: u32 | Since(base, s.samples[0].tick) <= Since(base, t) <= Since(base, at)
      ensures Interpolate(s.samples, t).Some?
      ensures Interpolate(after.samples, t).Some?
      ensures WithinJump(Interpolate(after.samples, t).value, Interpolate(s.samples, t).value,
                         batch.samples[0].pos, Interpolate(s.samples, at).value)
    {
      CutBend(base, s.samples, at, batch.samples[0].pos, t);
      assert batch.samples[0] == Setpoint(at, batch.samples[0].pos);
      assert after.samples[..n + 1] == CutQueue(s.samples, at, batch.samples[0].pos);
      PrefixAnswers(after.samples, n + 1, t, 0);
    }
  }

  /** In numbers: the trajectory before T moves by at most the step limit plus
      one, and by at most one when the splice point is the point it replaces. */
  lemma SpliceBound(s: Session, batch: Batch, now: u32, base: u32, t: u32, j: nat)
    requires Ordered(base, s.samples) && Since(base, batch.spliceAtTick) < TWO_31
    requires Accepted(SessionAdmit(s, batch, Splice, now).1) && j < JOINT_COUNT
    requires Since(base, s.samples[0].tick) <= Since(base, t) <= Since(base, batch.spliceAtTick)
    ensures var before, after := Interpolate(s.samples, t), Interpolate(SessionAdmit(s, batch, Splice,
        now).0.samples, t);
            && before.Some? && after.Some?
            && AbsDiff(after.value[j], before.value[j]) <= s.policy.maximumStep[j] as int + 1
            && (Some(batch.samples[0].pos) == Interpolate(s.samples, batch.spliceAtTick) ==>
                  AbsDiff(after.value[j], before.value[j]) <= 1)
  {
    SpliceIsContinuous(s, batch, now, base);
  }
}
