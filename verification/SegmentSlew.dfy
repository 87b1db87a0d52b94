/** How far one segment moves in a stretch of time, under the step limit: the
    arithmetic behind the slew bound. */
module SegmentSlew {
  import opened Words
  import opened Interpolation
  import opened StreamContract
  import opened StreamSession

  // ---- Limits ----

  /** From `from` to `to` within the step limit, counting every control tick
      that the segment touches. */
  ghost predicate Reaches(from: Vec, to: Vec, span: u32, m: Vec) {
    forall j :: 0 <= j < JOINT_COUNT ==> AbsDiff(to[j], from[j]) <= m[j] * ((span + 4) / 5)
  }

  /** `a` and `b` differ by at most c step limits on every joint. */
  ghost predicate Close(a: Vec, b: Vec, m: Vec, c: nat) {
    forall j :: 0 <= j < JOINT_COUNT ==> AbsDiff(b[j], a[j]) <= c * m[j]
  }

  lemma AllowedReaches(a: Setpoint, b: Setpoint, m: Vec)
    requires StepAllowed(a, b, m)
    ensures Reaches(a.pos, b.pos, Sub32(b.tick, a.tick), m)
  {
    var span: int := Sub32(b.tick, a.tick);
    assert (span + 4) / 5 == span / 5;
  }

  // ---- Arithmetic of one step ----

  /** The three ways a stretch of w ms can take its share of a segment. */
  ghost predicate Share(span: nat, w: nat, c: nat) {
    || (span % 5 == 0 && w <= 5 * c)
    || (c == 2 && w <= 5 && 4 <= span)
    || (1 <= c && w == span <= 5)
  }

  lemma GridShare(d: nat, m: nat, n: nat, w: nat, c: nat)
    requires d <= m * n && w <= 5 * c
    ensures d * w <= c * m * (5 * n)
  {
    MulMono(d, w, 5 * c);
    MulMono(5 * c, d, m * n);
    assert (5 * c) * (m * n) == c * m * (5 * n) by {
      assert c * (m * n) == c * m * n;
    }
  }

  lemma FirstShare(d: nat, m: nat, n: nat, span: nat, w: nat)
    requires d <= m * n && 5 * n <= 2 * span && w <= 5
    ensures d * w <= 2 * m * span
  {
    MulMono(d, w, 5);
    MulMono(5, d, m * n);
    MulMono(m, 5 * n, 2 * span);
    assert 5 * (m * n) == m * (5 * n);
    assert m * (2 * span) == 2 * m * span;
  }

  lemma ShortShare(d: nat, m: nat, span: nat, c: nat)
    requires d <= m && 1 <= c
    ensures d * span <= c * m * span
  {
    MulMono(span, d, m);
    MulMono(m * span, 1, c);
    assert (m * span) * c == c * m * span;
  }

  lemma StepShare(d: nat, m: nat, span: nat, w: nat, c: nat)
    requires 0 < span && d <= m * ((span + 4) / 5) && Share(span, w, c)
    ensures d * w <= c * m * span
  {
    var n := (span + 4) / 5;
    if span % 5 == 0 && w <= 5 * c {
      assert span == 5 * n;
      GridShare(d, m, n, w, c);
    } else if c == 2 && w <= 5 && 4 <= span {
      FirstShare(d, m, n, span, w);
    } else {
      assert n == 1 && m * n == m;
      ShortShare(d, m, span, c);
    }
  }

  lemma SignedShare(x: int, d: nat, w: nat, bound: nat)
    requires d * w <= bound && (x == d || x == -(d as int))
    ensures -(bound as int) <= x * w <= bound
  {
    MulMono(d, 0, w);
    if x == -(d as int) {
      assert x * w == -(d * w);
    }
  }

  lemma IdealClose(a: int, b: int, d: nat, span: nat, e1: nat, e2: nat, m: nat, c: nat)
    requires 0 < span && e1 <= e2 <= span && Share(span, e2 - e1, c)
    requires d <= m * ((span + 4) / 5) && (b - a == d || b - a == -(d as int))
    ensures -((c * m) as int) <= IdealLerp(a, b, e2, span) - IdealLerp(a, b, e1, span) <= c * m
  {
    StepShare(d, m, span, e2 - e1, c);
    SignedShare(b - a, d, e2 - e1, c * m * span);
    LerpSlew(a, b, e1, e2, span, c * m);
  }

  /** Two points of one joint's segment, `e2 - e1` ms apart. */
  lemma JointClose(a: i32, b: i32, span: u32, e1: u32, e2: u32, m: nat, c: nat)
    requires 0 < span && e1 <= e2 <= span && Share(span, e2 - e1, c)
    requires AbsDiff(b, a) <= m * ((span + 4) / 5)
    ensures AbsDiff(Lerp(a, b, e2, span), Lerp(a, b, e1, span)) <= c * m
  {
    IdealClose(a, b, AbsDiff(b, a), span, e1, e2, m, c);
    LerpExact(a, b, e1, span);
    LerpExact(a, b, e2, span);
  }

  /** Two points of a segment, under the step limit. */
  lemma PointsClose(from: Vec, to: Vec, span: u32, e1: u32, e2: u32, m: Vec, c: nat)
    requires 0 < span && e1 <= e2 <= span && Share(span, e2 - e1, c) && Reaches(from, to, span, m)
    requires forall j :: 0 <= j < JOINT_COUNT ==> 0 < m[j]
    ensures Close(LerpVec(from, to, e1, span), LerpVec(from, to, e2, span), m, c)
  {
    forall j | 0 <= j < JOINT_COUNT
      ensures AbsDiff(LerpVec(from, to, e2, span)[j], LerpVec(from, to, e1, span)[j]) <= c * m[j]
    {
      JointClose(from[j], to[j], span, e1, e2, m[j], c);
    }
  }

  lemma SegmentEnds(a: Vec, b: Vec, span: u32)
    requires 0 < span
    ensures LerpVec(a, b, 0, span) == a && LerpVec(a, b, span, span) == b
  {
    forall j | 0 <= j < JOINT_COUNT
      ensures LerpVec(a, b, 0, span)[j] == a[j] && LerpVec(a, b, span, span)[j] == b[j]
    {
      LerpExact(a[j], b[j], 0, span);
      LerpExact(a[j], b[j], span, span);
      IdealLerpBetween(a[j], b[j], 0, span);
      IdealLerpBetween(a[j], b[j], span, span);
    }
  }
}
