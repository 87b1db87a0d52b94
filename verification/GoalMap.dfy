/** From micro-radians to modulo-4096 servo counts, all twelve joints or none. */
module GoalMap {
  import opened Words
  import opened StreamContract

  const RAW_UNITS_PER_TURN := 4096
  const TURN_URAD := 6283185
  const ARM_JOINT_COUNT := 6

  datatype JointMap = JointMap(zeroRaw: u16, direction: int, minimumRaw: i32, maximumRaw: i32)
  type JointMaps = m: seq<JointMap> | |m| == JOINT_COUNT witness seq(JOINT_COUNT, _ => JointMap(0, 1, 0, 0))

  datatype GoalResult = MapOk | InvalidConfig | LimitViolation

  /** Counts from the zero position, to the nearest. */
  function RawDelta(urad: i32): int {
    RoundDivide(urad as int * RAW_UNITS_PER_TURN, TURN_URAD)
  }

  function UnwrappedGoal(jm: JointMap, urad: i32): int {
    jm.zeroRaw + jm.direction * RawDelta(urad)
  }

  /** C's `%`, whose sign follows the dividend. */
  function TruncMod(x: int, m: int): int
    requires 0 < m
  {
    x - TruncDiv(x, m) * m
  }

  function ModuloRaw(unwrapped: int): int {
    var r := TruncMod(unwrapped, RAW_UNITS_PER_TURN);
    if r < 0 then r + RAW_UNITS_PER_TURN else r
  }

  /** The correction makes C's remainder the mathematical one. */
  lemma ModuloIsEuclidean(x: int)
    ensures ModuloRaw(x) == x % RAW_UNITS_PER_TURN && 0 <= ModuloRaw(x) < RAW_UNITS_PER_TURN
  {
  }

  function GoalVerdict(jm: JointMap, urad: i32): GoalResult {
    if jm.zeroRaw >= RAW_UNITS_PER_TURN || (jm.direction != 1 && jm.direction != -1)
       || jm.minimumRaw > jm.maximumRaw then InvalidConfig
    else if UnwrappedGoal(jm, urad) < jm.minimumRaw || UnwrappedGoal(jm, urad) > jm.maximumRaw then
      LimitViolation
    else MapOk
  }

  /** The first joint, from j on, that cannot be mapped; 12 if all can. */
  function FirstFailure(maps: JointMaps, pos: Vec, j: nat): (r: nat)
    requires j <= JOINT_COUNT
    ensures j <= r <= JOINT_COUNT
    ensures forall k :: j <= k < r ==> GoalVerdict(maps[k], pos[k]) == MapOk
    ensures r < JOINT_COUNT ==> GoalVerdict(maps[r], pos[r]) != MapOk
    decreases JOINT_COUNT - j
  {
    if j < JOINT_COUNT && GoalVerdict(maps[j], pos[j]) == MapOk then FirstFailure(maps, pos, j + 1) else j
  }

  function Goal(maps: JointMaps, pos: Vec, j: nat): (g: u16)
    requires j < JOINT_COUNT
  {
    ModuloIsEuclidean(UnwrappedGoal(maps[j], pos[j]));
    ModuloRaw(UnwrappedGoal(maps[j], pos[j]))
  }

  function Goals(maps: JointMaps, pos: Vec): (g: seq<u16>)
    ensures |g| == JOINT_COUNT
  {
    seq(JOINT_COUNT, j requires 0 <= j < JOINT_COUNT => Goal(maps, pos, j))
  }

  /** The atomic map: both arms' goals are written, or neither array changes
      and the first failing joint is reported. */
  method MapGoals(maps: JointMaps, pos: Vec, left: array<u16>, right: array<u16>)
    returns (r: GoalResult, failedJoint: nat)
    requires left.Length == ARM_JOINT_COUNT && right.Length == ARM_JOINT_COUNT && left != right
    modifies left, right
    ensures var first := FirstFailure(maps, pos, 0);
            if first < JOINT_COUNT then
              r == GoalVerdict(maps[first], pos[first]) && failedJoint == first
              && left[..] == old(left[..]) && right[..] == old(right[..])
            else
              r == MapOk && failedJoint == 255 && left[..] + right[..] == Goals(maps, pos)
  {
    var candidate: seq<u16> := [];
    for j := 0 to JOINT_COUNT
      invariant candidate == Goals(maps, pos)[..j]
      invariant FirstFailure(maps, pos, 0) == FirstFailure(maps, pos, j)
      invariant left[..] == old(left[..]) && right[..] == old(right[..])
    {
      var jm := maps[j];
      var unwrapped := jm.zeroRaw + jm.direction * RoundDivide(pos[j] as int * RAW_UNITS_PER_TURN, TURN_URAD);
      if jm.zeroRaw >= RAW_UNITS_PER_TURN || (jm.direction != 1 && jm.direction != -1)
         || jm.minimumRaw > jm.maximumRaw {
        return InvalidConfig, j;
      }
      if unwrapped < jm.minimumRaw || unwrapped > jm.maximumRaw { return LimitViolation, j; }
      candidate := candidate + [Goal(maps, pos, j)];
    }
    assert candidate == Goals(maps, pos);
    CopyArm(candidate[..ARM_JOINT_COUNT], left);
    CopyArm(candidate[ARM_JOINT_COUNT..], right);
    assert candidate == candidate[..ARM_JOINT_COUNT] + candidate[ARM_JOINT_COUNT..];
    r, failedJoint := MapOk, 255;
  }

  method CopyArm(goals: seq<u16>, arm: array<u16>)
    requires arm.Length == |goals| == ARM_JOINT_COUNT
    modifies arm
    ensures arm[..] == goals
  {
    for j := 0 to ARM_JOINT_COUNT
      invariant arm[..j] == goals[..j]
    {
      arm[j] := goals[j];
    }
  }

  /** Rounding keeps order, so limits checked at their ends hold throughout. */
  lemma RawDeltaMonotone(a: i32, b: i32)
    requires a <= b
    ensures RawDelta(a) <= RawDelta(b)
  {
  }

  /** `RawDelta` is the nearest count: half a count away at most. */
  lemma RawDeltaNearest(urad: i32)
    ensures -TURN_URAD <= 2 * (RawDelta(urad) * TURN_URAD - urad as int * RAW_UNITS_PER_TURN) <= TURN_URAD
  {
  }

  /** A joint's goal means the angle: it is the remainder of a count inside the
      joint's limits that lies half a count from the angle at most, from the
      zero in the joint's direction. */
  ghost predicate Means(jm: JointMap, urad: i32, goal: u16, count: int) {
    && jm.minimumRaw <= count <= jm.maximumRaw && goal == count % 4096
    && -6283185 <= 2 * ((count - jm.zeroRaw) * jm.direction * 6283185 - urad as int * 4096) <= 6283185
  }

  /** What a joint is mapped to, or why it is not. */
  lemma GoalMeans(maps: JointMaps, pos: Vec, j: nat)
    requires j < JOINT_COUNT
    ensures var jm, verdict, count := maps[j], GoalVerdict(maps[j], pos[j]), UnwrappedGoal(maps[j], pos[j]);
            && (verdict == InvalidConfig <==>
                  jm.zeroRaw > 4095 || jm.direction !in {1, -1} || jm.minimumRaw > jm.maximumRaw)
            && (verdict != InvalidConfig ==>
                  && (verdict == LimitViolation <==> !(jm.minimumRaw <= count <= jm.maximumRaw))
                  && -6283185 <= 2 * ((count - jm.zeroRaw) * jm.direction * 6283185 - pos[j] as int * 4096) <= 6283185)
            && (verdict == MapOk ==> Means(jm, pos[j], Goals(maps, pos)[j], count))
  {
    var count := UnwrappedGoal(maps[j], pos[j]);
    RawDeltaNearest(pos[j]);
    ModuloIsEuclidean(count);
    if maps[j].direction == 1 || maps[j].direction == -1 {
      assert (count - maps[j].zeroRaw) * maps[j].direction == RawDelta(pos[j]);
    }
  }

  /** The atomic map, by what the goals mean: either every joint's goal means its
      angle, or the first joint that cannot be mapped is named. */
  lemma MapMeans(maps: JointMaps, pos: Vec)
    ensures var first := FirstFailure(maps, pos, 0);
            && (first == JOINT_COUNT ==>
                  forall j: nat :: j < JOINT_COUNT ==>
                    exists count: int :: Means(maps[j], pos[j], Goals(maps, pos)[j], count))
            && (first < JOINT_COUNT ==> GoalVerdict(maps[first], pos[first]) != MapOk)
            && forall j: nat :: j < first ==> GoalVerdict(maps[j], pos[j]) == MapOk
  {
    hide Goals, Means, GoalVerdict, UnwrappedGoal;
    forall j: nat | j < JOINT_COUNT
      ensures GoalVerdict(maps[j], pos[j]) == MapOk ==>
                Means(maps[j], pos[j], Goals(maps, pos)[j], UnwrappedGoal(maps[j], pos[j]))
    {
      GoalMeans(maps, pos, j);
    }
  }
}
