/** Truncating linear interpolation between two setpoints: the one formula the
    session, the executor, the buffered executor and the host all compute. */
module Interpolation {
  import opened Words

  /** The cast `(int32_t)` of a 64-bit value: it keeps the low 32 bits. */
  function WrapI32(x: int): i32 {
    AsI32(x % TWO_32)
  }

  /** `a + (int32_t)((delta * (int64_t)elapsed) / (int64_t)span)`. */
  function Lerp(a: i32, b: i32, elapsed: u32, span: u32): i32
    requires 0 < span
  {
    WrapI32(a + WrapI32(TruncDiv((b - a) as int * elapsed, span)))
  }

  /** The same point on unbounded integers, as the host computes it. */
  function IdealLerp(a: int, b: int, elapsed: nat, span: nat): int
    requires 0 < span
  {
    a + TruncDiv((b - a) * elapsed, span)
  }

  lemma MulMono(k: int, x: int, y: int)
    requires 0 <= k && x <= y
    ensures k * x <= k * y
  {
  }

  lemma DivBounds(n: nat, d: nat)
    requires 0 < d
    ensures n / d * d <= n < n / d * d + d && 0 <= n / d
  {
    assert n == n / d * d + n % d;
  }

  /** Rounding toward zero loses less than one denominator. */
  lemma TruncDivBounds(n: int, d: int)
    requires 0 < d
    ensures 0 <= n ==> TruncDiv(n, d) * d <= n < TruncDiv(n, d) * d + d
    ensures n <= 0 ==> TruncDiv(n, d) * d - d < n <= TruncDiv(n, d) * d
    ensures 0 <= n ==> 0 <= TruncDiv(n, d)
    ensures n <= 0 ==> TruncDiv(n, d) <= 0
  {
    DivBounds(if 0 <= n then n else -n, d);
    if n < 0 {
      NegMul((-n) / d, d);
    }
  }

  lemma NegMul(q: int, d: int)
    ensures (-q) * d == -(q * d)
  {
  }

  lemma {:induction false} DivideAtMost(q: int, k: int, d: int)
    requires 0 < d && q * d < (k + 1) * d
    ensures q <= k
  {
    if k + 1 <= q {
      MulMono(d, k + 1, q);
    }
  }

  /** Truncated quotients of numerators at most k denominators apart differ by
      at most k, whatever their signs. */
  lemma TruncDivLipschitz(n1: int, n2: int, d: int, k: nat)
    requires 0 < d
    requires -(k * d) <= n1 - n2 <= k * d
    ensures -(k as int) <= TruncDiv(n1, d) - TruncDiv(n2, d) <= k
  {
    TruncDivOneSided(n1, n2, d, k);
    TruncDivOneSided(n2, n1, d, k);
  }

  lemma TruncDivOneSided(n1: int, n2: int, d: int, k: nat)
    requires 0 < d
    requires n1 - n2 <= k * d
    ensures TruncDiv(n1, d) - TruncDiv(n2, d) <= k
  {
    TruncDivBounds(n1, d);
    TruncDivBounds(n2, d);
    if 0 <= n1 || n2 <= 0 {
      QuotientGap(n1, n2, TruncDiv(n1, d), TruncDiv(n2, d), d, k);
    }
  }

  lemma QuotientGap(n1: int, n2: int, q1: int, q2: int, d: int, k: nat)
    requires 0 < d && n1 - n2 <= k * d
    requires q1 * d <= n1 || q1 * d - d < n1 <= 0
    requires n2 <= q2 * d || 0 <= n2 < q2 * d + d
    requires 0 <= n1 || n2 <= 0
    requires 0 <= n1 ==> q1 * d <= n1
    requires n2 <= 0 ==> n2 <= q2 * d
    ensures q1 - q2 <= k
  {
    var p1, p2, kd := q1 * d, q2 * d, k * d;
    assert p1 - p2 < kd + d;
    assert (q1 - q2) * d == p1 - p2;
    assert (k + 1) * d == kd + d;
    DivideAtMost(q1 - q2, k, d);
  }

  lemma DivScale(n: nat, d: nat, c: nat)
    requires 0 < d && 0 < c
    ensures 0 < d * c && (n * c) / (d * c) == n / d
  {
    var q, r := n / d, n % d;
    assert n == q * d + r && 0 <= r < d;
    Distribute(q, d, r, c);
    RemainderScales(r, d, c);
    DivUnique(n * c, d * c, q, r * c);
  }

  lemma Distribute(q: int, d: int, r: int, c: int)
    ensures (q * d + r) * c == q * (d * c) + r * c
  {
  }

  lemma RemainderScales(r: nat, d: nat, c: nat)
    requires r < d && 0 < c
    ensures 0 < d * c && 0 <= r * c < d * c
  {
    MulMono(c, r, d - 1);
    assert c * (d - 1) == d * c - c;
  }

  lemma DivUnique(n: int, d: int, q: int, r: int)
    requires 0 < d && n == q * d + r && 0 <= r < d
    ensures n / d == q
  {
    var q', r' := n / d, n % d;
    assert n == q' * d + r' && 0 <= r' < d;
    assert (q - q') * d == r' - r;
    if q - q' >= 1 {
      MulMono(d, 1, q - q');
    } else if q - q' <= -1 {
      MulMono(d, q - q', -1);
    }
  }

  lemma TruncDivScale(n: int, d: int, c: int)
    requires 0 < d && 0 < c
    ensures 0 < d * c && TruncDiv(n * c, d * c) == TruncDiv(n, d)
  {
    if 0 <= n {
      DivScale(n, d, c);
      assert 0 <= n * c;
    } else {
      DivScale(-n, d, c);
      assert -(n * c) == (-n) * c;
      assert n * c < 0;
    }
  }

  /** Quotients over different denominators: if the fractions are at most k
      apart, so are the truncated values. */
  lemma TruncDivCross(n1: int, d1: int, n2: int, d2: int, k: nat)
    requires 0 < d1 && 0 < d2
    requires -(k * (d1 * d2)) <= n1 * d2 - n2 * d1 <= k * (d1 * d2)
    ensures -(k as int) <= TruncDiv(n1, d1) - TruncDiv(n2, d2) <= k
  {
    TruncDivScale(n1, d1, d2);
    TruncDivScale(n2, d2, d1);
    assert d2 * d1 == d1 * d2;
    TruncDivLipschitz(n1 * d2, n2 * d1, d1 * d2, k);
  }

  /** A point between two ends stays between them. */
  lemma IdealLerpBetween(a: int, b: int, elapsed: nat, span: nat)
    requires 0 < span && elapsed <= span
    ensures a <= b ==> a <= IdealLerp(a, b, elapsed, span) <= b
    ensures b <= a ==> b <= IdealLerp(a, b, elapsed, span) <= a
    ensures elapsed == 0 ==> IdealLerp(a, b, elapsed, span) == a
    ensures elapsed == span ==> IdealLerp(a, b, elapsed, span) == b
  {
    var n := (b - a) * elapsed;
    TruncDivBounds(n, span);
    if a <= b {
      MulMono(b - a, elapsed, span);
      MulMono(b - a, 0, elapsed);
      DivideAtMost(TruncDiv(n, span), b - a, span) by {
        assert (b - a + 1) * span == (b - a) * span + span;
      }
    } else {
      MulMono(a - b, elapsed, span);
      MulMono(a - b, 0, elapsed);
      assert n == -((a - b) * elapsed);
      DivideAtMost(-TruncDiv(n, span), a - b, span) by {
        assert (a - b + 1) * span == (a - b) * span + span;
        assert (-TruncDiv(n, span)) * span == -(TruncDiv(n, span) * span);
      }
    }
    if elapsed == span {
      assert n == (b - a) * span;
      if a <= b {
        DivUnique(n, span, b - a, 0);
      } else {
        assert -n == (a - b) * span;
        DivUnique(-n, span, a - b, 0);
      }
    } else if elapsed == 0 {
      assert n == 0;
    }
  }

  /** The two casts cancel whenever the true result is an int32. */
  lemma WrapTwice(a: i32, q: int)
    requires -TWO_31 <= a + q < TWO_31
    ensures WrapI32(a + WrapI32(q)) == a + q
  {
    var turns := q / TWO_32;
    assert q % TWO_32 == q - turns * TWO_32;
  }

  /** The firmware's formula is the ideal one, and stays between its ends. */
  lemma LerpExact(a: i32, b: i32, elapsed: u32, span: u32)
    requires 0 < span && elapsed <= span
    ensures Lerp(a, b, elapsed, span) == IdealLerp(a, b, elapsed, span)
    ensures a <= b ==> a <= Lerp(a, b, elapsed, span) <= b
    ensures b <= a ==> b <= Lerp(a, b, elapsed, span) <= a
  {
    IdealLerpBetween(a, b, elapsed, span);
    WrapTwice(a, TruncDiv((b - a) as int * elapsed, span));
  }

  /** When C defines every operation of the formula: ends less than 2^31 apart
      keep the product in int64, and the quotient and the sum in int32. */
  lemma LerpDefined(a: i32, b: i32, elapsed: u32, span: u32)
    requires 0 < span && elapsed <= span
    requires AbsDiff(a, b) < TWO_31
    ensures -0x8000_0000_0000_0000 <= (b - a) as int * elapsed < 0x8000_0000_0000_0000
    ensures -TWO_31 <= TruncDiv((b - a) as int * elapsed, span) < TWO_31
    ensures -TWO_31 <= a + TruncDiv((b - a) as int * elapsed, span) < TWO_31
  {
    IdealLerpBetween(a, b, elapsed, span);
    var d: int := b - a;
    Scaled(d, AbsDiff(a, b), elapsed, 1, TWO_32 - 1);
    assert (TWO_32 - 1) * AbsDiff(a, b) <= (TWO_32 - 1) * (TWO_31 - 1) by {
      MulMono(TWO_32 - 1, AbsDiff(a, b), TWO_31 - 1);
    }
  }

  /** Slew along one segment: where the exact line moves by at most k between
      two points, so do the truncated values. */
  lemma LerpSlew(a: int, b: int, e1: nat, e2: nat, span: nat, k: nat)
    requires 0 < span && e1 <= e2 <= span
    requires -(k * span) <= (b - a) * (e2 - e1) <= k * span
    ensures -(k as int) <= IdealLerp(a, b, e2, span) - IdealLerp(a, b, e1, span) <= k
  {
    assert (b - a) * e2 - (b - a) * e1 == (b - a) * (e2 - e1);
    TruncDivLipschitz((b - a) * e2, (b - a) * e1, span, k);
  }

  /** The heart of splice continuity. The old segment runs from `left` to
      `right` in `span` ms; the new one leaves it for `target` at `cut`, where
      `target` is within `m` of the old point. Before the cut, old and new
      differ by at most `m + 1`. */
  lemma SpliceSegment(left: int, right: int, span: nat, cut: nat, target: int, e: nat, m: nat)
    requires 0 < cut <= span && e <= cut
    requires -(m as int) <= target - IdealLerp(left, right, cut, span) <= m
    ensures -(m as int) - 1 <= IdealLerp(left, target, e, cut) - IdealLerp(left, right, e, span) <= m + 1
  {
    var d := right - left;
    var p := TruncDiv(d * cut, span);
    TruncDivBounds(d * cut, span);
    assert IdealLerp(left, right, cut, span) == left + p;
    SpliceCross(d, p, target - left - p, span, cut, e, m);
    TruncDivCross((target - left) * e, cut, d * e, span, m + 1);
  }

  lemma SpliceCross(d: int, p: int, delta: int, span: nat, cut: nat, e: nat, m: nat)
    requires 0 < cut <= span && e <= cut
    requires -(m as int) <= delta <= m
    requires -(span as int) <= p * span - d * cut <= span
    ensures -((m + 1) * (cut * span)) <= (p + delta) * e * span - d * e * cut <= (m + 1) * (cut * span)
  {
    SpliceIdentity(d, p, delta, span, cut, e);
    Scaled(p * span - d * cut, span, e, 1, cut);
    ScaledBound(delta, m, e * span);
    MulMono(span, e, cut);
    MulMono(m, e * span, cut * span);
    SumBound(e * (p * span - d * cut), delta * (e * span), cut * span, m);
  }

  lemma SpliceIdentity(d: int, p: int, delta: int, span: int, cut: int, e: int)
    ensures (p + delta) * e * span - d * e * cut == e * (p * span - d * cut) + delta * (e * span)
  {
    assert (p + delta) * e * span == (p + delta) * (e * span) == p * (e * span) + delta * (e * span);
    assert p * (e * span) == e * (p * span);
    assert d * e * cut == e * (d * cut);
    assert e * (p * span - d * cut) == e * (p * span) - e * (d * cut);
  }

  lemma SumBound(x: int, y: int, u: int, m: nat)
    requires -u <= x <= u && -(m * u) <= y <= m * u
    ensures -((m + 1) * u) <= x + y <= (m + 1) * u
  {
    assert (m + 1) * u == m * u + u;
  }

  /** If |x| <= s and e <= c then |e * x| <= c * s, and for k factors too. */
  lemma Scaled(x: int, s: nat, e: nat, k: nat, c: nat)
    requires -(k * s) <= x <= k * s && e <= c
    ensures -(c * (k * s)) <= e * x <= c * (k * s)
  {
    MulMono(e, x, k * s);
    MulMono(e, -(k * s), x);
    MulMono(k * s, e, c);
  }

  lemma ScaledBound(x: int, m: nat, w: nat)
    requires -(m as int) <= x <= m
    ensures -(m * w) <= x * w <= m * w
  {
    MulMono(w, x, m);
    MulMono(w, -(m as int), x);
  }
}
