/** Multi-turn position from a modulo-4096 encoder, and the exact conversions
    between counts and micro-radians. */
module JointUnwrap {
  import opened Words
  import opened GoalMap

  const MODULUS := 4096
  const HALF_TURN := 2048
  const INT64_MAX := 0x7FFF_FFFF_FFFF_FFFF

  datatype UnwrapResult =
    | UnwrapOk | RawOutOfRange | BadReferenceWindow | ReferenceTooFar
    | AmbiguousDelta | BadDirection | OutsideLimit | Overflow

  predicate IsI32(x: int) {
    -TWO_31 <= x < TWO_31
  }

  function Abs(x: int): nat {
    if x < 0 then -x else x
  }

  /** C's `/`, whatever the sign of the dividend. */
  function Quotient(x: int): int {
    TruncDiv(x, MODULUS)
  }

  // ---- Binding to a reference ----

  /** A count the joint may be bound to: it reads as `observed` and lies within
      the window of the reference. */
  ghost predicate Bindable(observed: u16, reference: i32, window: u16, x: int) {
    IsI32(x) && Abs(x - reference) <= window && x % MODULUS == observed
  }

  /** The count nearest to the reference that reads as `observed`. */
  function Nearest(observed: int, reference: int): int {
    var ahead := (reference - observed) % MODULUS;
    if ahead <= HALF_TURN then reference - ahead else reference + MODULUS - ahead
  }

  /** What binding decides, in closed form. */
  function BindVerdict(observed: u16, reference: i32, window: u16): UnwrapResult {
    var best := Nearest(observed, reference);
    if observed >= MODULUS then RawOutOfRange
    else if window == 0 || window >= HALF_TURN then BadReferenceWindow
    else if Abs(best - reference) == HALF_TURN then AmbiguousDelta
    else if Abs(best - reference) > window then ReferenceTooFar
    else if !IsI32(best) then Overflow
    else UnwrapOk
  }

  /** Binding succeeds exactly when a bindable count exists, and `Nearest` is
      then the only one. */
  lemma BindFindsTheOnlyOne(observed: u16, reference: i32, window: u16)
    requires observed < MODULUS && 0 < window < HALF_TURN
    ensures BindVerdict(observed, reference, window) == UnwrapOk <==> exists x: int :: Bindable(observed, reference,
        window, x)
    ensures forall x: int :: Bindable(observed, reference, window, x) ==> x == Nearest(observed, reference)
  {
    var best := Nearest(observed, reference);
    assert best % MODULUS == observed;
    forall x: int | Bindable(observed, reference, window, x)
      ensures x == best
    {
      assert (x - best) % MODULUS == 0;
    }
    if BindVerdict(observed, reference, window) == UnwrapOk {
      assert Bindable(observed, reference, window, best);
    }
  }

  /** What each refusal to bind means: a reading that is none, a window that is
      none or reaches half a turn, a reading exactly half a turn from the
      reference, one further off than the window, or a count no int32 holds. */
  lemma BindRefusals(observed: u16, reference: i32, window: u16)
    ensures var verdict := BindVerdict(observed, reference, window);
            && (verdict == RawOutOfRange <==> observed > 4095)
            && (verdict == BadReferenceWindow <==> observed <= 4095 && !(1 <= window <= 2047))
            && (observed <= 4095 && 1 <= window <= 2047 ==>
                  && (verdict == AmbiguousDelta <==> (reference - observed) % 4096 == 2048)
                  && (verdict == ReferenceTooFar <==>
                        && (reference - observed) % 4096 != 2048
                        && forall x: int :: x % 4096 == observed ==> Abs(x - reference) > window)
                  && (verdict == Overflow <==>
                        exists x: int :: x % 4096 == observed && Abs(x - reference) <= window && !IsI32(x)))
            && verdict in {UnwrapOk, RawOutOfRange, BadReferenceWindow, AmbiguousDelta, ReferenceTooFar, Overflow}
  {
    var best := Nearest(observed, reference);
    if observed <= 4095 {
      assert best % 4096 == observed;
      forall x: int | x % 4096 == observed
        ensures x == best || Abs(x - reference) >= 2048
      {
        assert (x - best) % 4096 == 0;
      }
    }
  }

  /** The firmware's scan over three turns: the best count so far, its
      distance, and whether another one is as near. */
  function Scan(observed: int, reference: int, turn: int, offset: int): (int, int, bool)
    requires -1 <= offset <= 2
    decreases offset + 1
  {
    if offset == -1 then (0, INT64_MAX, false)
    else
      var (best, distance, tied) := Scan(observed, reference, turn, offset - 1);
      var candidate := observed + (turn + offset - 1) * MODULUS;
      var d := Abs(candidate - reference);
      if d < distance then (candidate, d, false)
      else if d == distance then (best, distance, true)
      else (best, distance, tied)
  }

  /** Three turns around the truncated quotient are enough. */
  lemma ScanIsNearest(observed: u16, reference: i32)
    requires observed < MODULUS
    ensures var (best, distance, tied) := Scan(observed, reference, Quotient(reference - observed), 2);
            && distance == Abs(Nearest(observed, reference) - reference)
            && (tied <==> distance == HALF_TURN)
            && (!tied ==> best == Nearest(observed, reference))
  {
    var turn := Quotient(reference - observed);
    var rest := reference - observed - turn * MODULUS;
    assert -MODULUS < rest < MODULUS;
    assert (reference - observed) % MODULUS == if rest < 0 then rest + MODULUS else rest;
    assert Scan(observed, reference, turn, 0) == (observed + (turn - 1) * MODULUS, Abs(rest + MODULUS), false);
  }

  method ScanLoop(observed: u16, reference: i32, turn: int) returns (best: int, distance: int, tied: bool)
    ensures (best, distance, tied) == Scan(observed, reference, turn, 2)
  {
    best, distance, tied := 0, INT64_MAX, false;
    var offset := -1;
    while offset <= 1
      invariant -1 <= offset <= 2
      invariant (best, distance, tied) == Scan(observed, reference, turn, offset)
    {
      var candidate := observed + (turn + offset) * MODULUS;
      var d := Abs(candidate - reference);
      if d < distance {
        best, distance, tied := candidate, d, false;
      } else if d == distance {
        tied := true;
      }
      offset := offset + 1;
    }
  }

  // ---- Following a moving joint ----

  /** What one update adds: the reading's change, taken the short way round. */
  function ShortWay(delta: int): int {
    if delta > HALF_TURN then delta - MODULUS else if delta < -HALF_TURN then delta + MODULUS else delta
  }

  datatype Unwrapper = Unwrapper(bound: bool, previousRaw: u16, unwrappedRaw: i32)

  function Update(s: Unwrapper, observed: u16): (Unwrapper, UnwrapResult) {
    if !s.bound then (s, ReferenceTooFar)
    else if observed >= MODULUS then (s, RawOutOfRange)
    else
      var delta := observed as int - s.previousRaw;
      if delta == HALF_TURN || delta == -HALF_TURN then (s, AmbiguousDelta)
      else
        var updated := s.unwrappedRaw + ShortWay(delta);
        if !IsI32(updated) then (s, Overflow)
        else (s.(previousRaw := observed, unwrappedRaw := updated), UnwrapOk)
  }

  /** The state of a joint whose true position is known. */
  ghost predicate Tracks(s: Unwrapper, position: int) {
    s.bound && s.unwrappedRaw == position && position % MODULUS == s.previousRaw
  }

  /** One update tracks any motion of less than half a turn, and refuses a
      motion of exactly half a turn. */
  lemma UpdateTracks(s: Unwrapper, from: int, to: int)
    requires Tracks(s, from) && IsI32(to)
    ensures Abs(to - from) < HALF_TURN ==>
              Update(s, to % MODULUS).1 == UnwrapOk && Tracks(Update(s, to % MODULUS).0, to)
    ensures Abs(to - from) == HALF_TURN ==> Update(s, to % MODULUS) == (s, AmbiguousDelta)
  {
  }

  /** An update succeeds exactly when some int32 count with that reading is less
      than half a turn from where the joint was, and that count is the only one;
      whatever it refuses leaves the state, and each reason is what it says. */
  lemma UpdateFindsTheOnlyOne(s: Unwrapper, observed: u16)
    requires s.bound ==> s.unwrappedRaw % 4096 == s.previousRaw
    ensures var (after, r) := Update(s, observed);
            && (r == UnwrapOk <==> s.bound && exists x: int :: Reachable(s, observed, x))
            && (forall x: int :: r == UnwrapOk && Reachable(s, observed, x) ==>
                  after == Unwrapper(true, observed, x))
            && (r != UnwrapOk ==> after == s)
            && (r == ReferenceTooFar <==> !s.bound)
            && (s.bound ==> (r == RawOutOfRange <==> observed > 4095))
            && (r == AmbiguousDelta <==>
                  s.bound && observed <= 4095 && (observed - s.unwrappedRaw) % 4096 == 2048)
  {
    if s.bound && observed <= 4095 {
      var delta := observed as int - s.previousRaw as int;
      var moved := s.unwrappedRaw + ShortWay(delta);
      assert moved % 4096 == observed;
      assert (observed - s.unwrappedRaw) % 4096 == delta % 4096;
      forall x: int | Reachable(s, observed, x)
        ensures x == moved
      {
        assert (x - moved) % 4096 == 0;
      }
      if Update(s, observed).1 == UnwrapOk {
        assert Reachable(s, observed, moved);
      }
    }
  }

  /** A count the joint may have moved to. */
  ghost predicate Reachable(s: Unwrapper, observed: u16, x: int) {
    IsI32(x) && Abs(x - s.unwrappedRaw) < 2048 && x % 4096 == observed
  }

  /** Update after update, from a list of true positions. */
  function UpdateAll(s: Unwrapper, positions: seq<int>): seq<(Unwrapper, UnwrapResult)>
    decreases |positions|
  {
    if positions == [] then []
    else
      var next := Update(s, positions[0] % MODULUS);
      [next] + UpdateAll(next.0, positions[1..])
  }

  ghost predicate SlowMotion(from: int, positions: seq<int>)
    decreases |positions|
  {
    positions == [] || (IsI32(positions[0]) && Abs(positions[0] - from) < HALF_TURN
                        && SlowMotion(positions[0], positions[1..]))
  }

  /** Unwrapping tracks truth: along any motion with steps below half a turn
      that stays an int32, the unwrapped count is the true position after every
      single update. */
  lemma {:induction false} UnwrappingTracksTruth(s: Unwrapper, from: int, positions: seq<int>)
    requires Tracks(s, from) && SlowMotion(from, positions)
    ensures |UpdateAll(s, positions)| == |positions|
    ensures forall i :: 0 <= i < |positions| ==>
              UpdateAll(s, positions)[i].1 == UnwrapOk && Tracks(UpdateAll(s, positions)[i].0, positions[i])
    decreases |positions|
  {
    if positions != [] {
      UpdateTracks(s, from, positions[0]);
      UnwrappingTracksTruth(Update(s, positions[0] % MODULUS).0, positions[0], positions[1..]);
    }
  }

  class JointUnwrapper {
    var bound: bool
    var previousRaw: u16
    var unwrappedRaw: i32

    function Value(): Unwrapper
      reads this
    {
      Unwrapper(bound, previousRaw, unwrappedRaw)
    }

    method Reset()
      modifies this
      ensures Value() == Unwrapper(false, 0, 0)
    {
      bound, previousRaw, unwrappedRaw := false, 0, 0;
    }

    method Bind(observed: u16, reference: i32, window: u16) returns (r: UnwrapResult)
      modifies this
      ensures r == BindVerdict(observed, reference, window)
      ensures r == UnwrapOk ==> Tracks(Value(), Nearest(observed, reference))
      ensures r != UnwrapOk ==> Value() == old(Value())
    {
      var approximateTurn := Quotient(reference - observed);
      if observed >= MODULUS { return RawOutOfRange; }
      if window == 0 || window >= HALF_TURN { return BadReferenceWindow; }
      var best, bestDistance, tied := ScanLoop(observed, reference, approximateTurn);
      ScanIsNearest(observed, reference);
      if tied { return AmbiguousDelta; }
      if bestDistance > window { return ReferenceTooFar; }
      if !IsI32(best) { return Overflow; }
      bound, previousRaw, unwrappedRaw := true, observed, best;
      r := UnwrapOk;
    }

    method Observe(observed: u16) returns (r: UnwrapResult, unwrapped: i32)
      modifies this
      ensures (Value(), r) == Update(old(Value()), observed)
      ensures r == UnwrapOk ==> unwrapped == unwrappedRaw
    {
      unwrapped := 0;
      if !bound { return ReferenceTooFar, 0; }
      if observed >= MODULUS { return RawOutOfRange, 0; }
      var delta := observed as int - previousRaw as int;
      if delta == HALF_TURN || delta == -HALF_TURN { return AmbiguousDelta, 0; }
      if delta > HALF_TURN {
        delta := delta - MODULUS;
      } else if delta < -HALF_TURN {
        delta := delta + MODULUS;
      }
      var updated := unwrappedRaw + delta;
      if !IsI32(updated) { return Overflow, 0; }
      previousRaw, unwrappedRaw := observed, updated;
      r, unwrapped := UnwrapOk, unwrappedRaw;
    }
  }

  // ---- Conversions ----

  datatype Converted<T> = Value(value: T) | Refused(why: UnwrapResult)

  predicate DirectionIsValid(direction: int) {
    direction == 1 || direction == -1
  }

  function RawToUrad(zeroRaw: u16, direction: int, unwrapped: i32): Converted<i32> {
    if zeroRaw >= MODULUS then Refused(RawOutOfRange)
    else if !DirectionIsValid(direction) then Refused(BadDirection)
    else
      var urad := RoundDivide((unwrapped as int - zeroRaw) * direction * TURN_URAD, RAW_UNITS_PER_TURN);
      if !IsI32(urad) then Refused(Overflow) else Value(urad)
  }

  function UradToRaw(zeroRaw: u16, direction: int, urad: i32, minimum: i32, maximum: i32): Converted<(i32, u16)> {
    if zeroRaw >= MODULUS then Refused(RawOutOfRange)
    else if !DirectionIsValid(direction) then Refused(BadDirection)
    else if minimum > maximum then Refused(OutsideLimit)
    else
      var candidate := zeroRaw + direction * RawDelta(urad);
      if !IsI32(candidate) then Refused(Overflow)
      else if candidate < minimum || candidate > maximum then Refused(OutsideLimit)
      else
        ModuloIsEuclidean(candidate);
        Value((candidate, ModuloRaw(candidate)))
  }

  /** The angle of a count is the nearest one in micro-radians, counted from the
      zero in the joint's direction, and is refused only for a zero or direction
      that is none or when no int32 holds it. */
  lemma AngleIsNearest(zeroRaw: u16, direction: int, unwrapped: i32)
    ensures var r := RawToUrad(zeroRaw, direction, unwrapped);
            match r
            case Value(urad) =>
              && zeroRaw <= 4095 && direction in {1, -1}
              && Abs(urad as int * 4096 - (unwrapped as int - zeroRaw as int) * direction * 6283185) * 2 <= 4096
            case Refused(why) =>
              && (why == RawOutOfRange <==> zeroRaw > 4095)
              && (why == BadDirection <==> zeroRaw <= 4095 && direction !in {1, -1})
              && (why == Overflow <==> zeroRaw <= 4095 && direction in {1, -1})
              && (why == Overflow ==>
                    Abs((unwrapped as int - zeroRaw as int) * 6283185) * 2 >= (2 * TWO_31 - 1) * 4096)
  {
  }

  /** `count` is half a count from the angle at most. */
  ghost predicate NearestCount(zeroRaw: u16, direction: int, urad: i32, count: int) {
    Abs((count - zeroRaw) * direction * 6283185 - urad as int * 4096) * 2 <= 6283185
  }

  /** The count of an angle is the nearest one, counted from the zero in the
      joint's direction; it lies inside the limits, and the servo's reading is
      its remainder. */
  lemma CountIsNearest(zeroRaw: u16, direction: int, urad: i32, minimum: i32, maximum: i32)
    ensures var r := UradToRaw(zeroRaw, direction, urad, minimum, maximum);
            match r
            case Value((count, reading)) =>
              && zeroRaw <= 4095 && direction in {1, -1} && minimum <= count <= maximum && reading == count % 4096
              && NearestCount(zeroRaw, direction, urad, count)
            case Refused(why) =>
              && (why == RawOutOfRange <==> zeroRaw > 4095)
              && (why == BadDirection <==> zeroRaw <= 4095 && direction !in {1, -1})
              && (why == OutsideLimit && minimum <= maximum ==>
                    exists count: int ::
                      NearestCount(zeroRaw, direction, urad, count) && (count < minimum || count > maximum))
              && why in {RawOutOfRange, BadDirection, OutsideLimit, Overflow}
  {
    RawDeltaNearest(urad);
    var candidate := zeroRaw + direction * RawDelta(urad);
    if direction == 1 || direction == -1 {
      assert (candidate - zeroRaw) * direction == RawDelta(urad);
      assert NearestCount(zeroRaw, direction, urad, candidate);
    }
    if IsI32(candidate) {
      ModuloIsEuclidean(candidate);
    }
  }

  /** Counts to micro-radians and back is the identity, for every count whose
      angle fits and any limits that admit it. */
  lemma CountsRoundTrip(zeroRaw: u16, direction: int, unwrapped: i32, minimum: i32, maximum: i32)
    requires RawToUrad(zeroRaw, direction, unwrapped).Value? && minimum <= unwrapped <= maximum
    ensures UradToRaw(zeroRaw, direction, RawToUrad(zeroRaw, direction, unwrapped).value, minimum, maximum)
         == Value((unwrapped, (unwrapped % MODULUS) as u16))
  {
    var counts := (unwrapped as int - zeroRaw) * direction;
    var urad := RawToUrad(zeroRaw, direction, unwrapped).value;
    RawDeltaOfUrad(counts);
    ModuloIsEuclidean(unwrapped);
    assert urad == RoundDivide(counts * TURN_URAD, RAW_UNITS_PER_TURN);
    assert zeroRaw + direction * counts == unwrapped;
  }

  lemma RawDeltaOfUrad(counts: int)
    ensures RoundDivide(RoundDivide(counts * TURN_URAD, RAW_UNITS_PER_TURN) * RAW_UNITS_PER_TURN, TURN_URAD) == counts
  {
  }

  /** Micro-radians to counts and back errs by at most 767. */
  lemma AngleRoundTrip(zeroRaw: u16, direction: int, urad: i32, minimum: i32, maximum: i32)
    requires UradToRaw(zeroRaw, direction, urad, minimum, maximum).Value?
    requires RawToUrad(zeroRaw, direction, UradToRaw(zeroRaw, direction, urad, minimum, maximum).value.0).Value?
    ensures Abs(RawToUrad(zeroRaw, direction, UradToRaw(zeroRaw, direction, urad, minimum,
        maximum).value.0).value - urad) <= 767
  {
    RawDeltaNearest(urad);
    var counts := UradToRaw(zeroRaw, direction, urad, minimum, maximum).value.0;
    assert (counts - zeroRaw) * direction == RawDelta(urad);
  }

  /** And 767 is reached. */
  lemma AngleBoundIsTight()
    ensures UradToRaw(0, 1, -3999855, -TWO_31, TWO_31 - 1) == Value((-2608, 1488))
    ensures RawToUrad(0, 1, -2608) == Value(-3999855 - 767)
  {
    assert RoundDivide(-3999855 * 4096, 6283185) == -2608;
    assert RoundDivide(-2608 * 6283185, 4096) == -4000622;
    ModuloIsEuclidean(-2608);
  }
}
