/** The operator-approved operating envelope, and the last step of the stream: every
    vector the executor dispatches becomes servo goals that mean exactly what
    was intended. */
module OperationalLimits {
  import opened Words
  import opened StreamContract
  import opened StreamSession
  import opened StreamExecutor
  import opened ExecutorRuns
  import opened GoalMap

  datatype OperationalLimit = OperationalLimit(
    zeroRaw: u16, direction: int, rawMinimum: i32, rawMaximum: i32, uradMinimum: i32, uradMaximum: i32)

  const ARM_COUNT := 2

  /** Both arms' joints, left arm first. */
  function Table(): (t: seq<OperationalLimit>)
    ensures |t| == JOINT_COUNT
  {
    [ OperationalLimit(2048,  1,  983, 3041, -1633689, 1523243),
      OperationalLimit(2048,  1, 1899, 4187,  -228563, 3281185),
      OperationalLimit(2048, -1,  286, 2492,  -681087, 2702874),
      OperationalLimit(2048, -1,  170, 2384,  -515418, 2880816),
      OperationalLimit(2048,  1,  587, 2838, -2241146, 1211845),
      OperationalLimit(2048, -1, 1872, 3257, -1854583,  269981),
      OperationalLimit(2048,  1, 1108, 2996, -1441942, 1454214),
      OperationalLimit(2048,  1, 1859, 4188,  -289922, 3282719),
      OperationalLimit(2048, -1,  297, 2523,  -728641, 2686000),
      OperationalLimit(2048, -1,  377, 2438,  -598252, 2563282),
      OperationalLimit(2048,  1,  749, 2970, -1992641, 1414330),
      OperationalLimit(2048, -1, 1907, 3299, -1919010,  216291) ]
  }

  function Get(arm: nat, joint: nat): Option<OperationalLimit> {
    if arm >= ARM_COUNT || joint >= ARM_JOINT_COUNT then None else Some(Table()[arm * ARM_JOINT_COUNT + joint])
  }

  predicate Contains(arm: nat, joint: nat, unwrapped: int) {
    var limit := Get(arm, joint);
    limit.Some? && limit.value.rawMinimum <= unwrapped <= limit.value.rawMaximum
  }

  /** The executor limits and goal maps loaded from the table. */
  function ExecutorLimits(): (l: Limits)
  {
    seq(JOINT_COUNT, j requires 0 <= j < JOINT_COUNT => Limit(Table()[j].uradMinimum, Table()[j].uradMaximum))
  }

  function GoalMaps(): (m: JointMaps)
  {
    seq(JOINT_COUNT, j requires 0 <= j < JOINT_COUNT =>
      JointMap(Table()[j].zeroRaw, Table()[j].direction, Table()[j].rawMinimum, Table()[j].rawMaximum))
  }

  /** Every row: a valid map, less than one turn wide, reachable by one turn of
      correction, and with angle limits that are the count limits. */
  lemma RowIsConsistent(j: nat)
    requires j < JOINT_COUNT
    ensures var t := Table()[j];
            && t.zeroRaw < RAW_UNITS_PER_TURN && (t.direction == 1 || t.direction == -1)
            && 0 <= t.rawMinimum < t.rawMaximum < t.rawMinimum + RAW_UNITS_PER_TURN
            && t.rawMaximum < 2 * RAW_UNITS_PER_TURN
            && t.uradMinimum < t.uradMaximum && AbsDiff(t.uradMaximum, t.uradMinimum) < TWO_31
            && (if t.direction == 1 then
                  UnwrappedGoal(GoalMaps()[j], t.uradMinimum) == t.rawMinimum
                  && UnwrappedGoal(GoalMaps()[j], t.uradMaximum) == t.rawMaximum
                else
                  UnwrappedGoal(GoalMaps()[j], t.uradMinimum) == t.rawMaximum
                  && UnwrappedGoal(GoalMaps()[j], t.uradMaximum) == t.rawMinimum)
  {
    var t := Table()[j];
    assert GoalMaps()[j] == JointMap(t.zeroRaw, t.direction, t.rawMinimum, t.rawMaximum);
  }

  /** Inside the angle limits the goal map never refuses a joint. */
  lemma LimitsAreMapped(j: nat, urad: i32)
    requires j < JOINT_COUNT && Table()[j].uradMinimum <= urad <= Table()[j].uradMaximum
    ensures GoalVerdict(GoalMaps()[j], urad) == MapOk
    ensures Contains(j / ARM_JOINT_COUNT, j % ARM_JOINT_COUNT, UnwrappedGoal(GoalMaps()[j], urad))
  {
    var t := Table()[j];
    RowIsConsistent(j);
    RawDeltaMonotone(t.uradMinimum, urad);
    RawDeltaMonotone(urad, t.uradMaximum);
    assert j / ARM_JOINT_COUNT * ARM_JOINT_COUNT + j % ARM_JOINT_COUNT == j;
  }

  // ---- Reading a count back ----

  /** The turn, of -1, 0 and 1, that puts a reading inside the limits, if
      exactly one does. */
  function UnwrapModulo(arm: nat, joint: nat, raw: u16): Option<int> {
    var down, here, up := raw - RAW_UNITS_PER_TURN, raw as int, raw + RAW_UNITS_PER_TURN;
    var c := Contains;
    if raw >= RAW_UNITS_PER_TURN then None
    else if c(arm, joint, down) && !c(arm, joint, here) && !c(arm, joint, up) then Some(down)
    else if !c(arm, joint, down) && c(arm, joint, here) && !c(arm, joint, up) then Some(here)
    else if !c(arm, joint, down) && !c(arm, joint, here) && c(arm, joint, up) then Some(up)
    else None
  }

  method UnwrapModuloLoop(arm: nat, joint: nat, raw: u16) returns (r: Option<int>)
    ensures r == UnwrapModulo(arm, joint, raw)
  {
    if raw >= RAW_UNITS_PER_TURN { return None; }
    var matched, count := 0, 0;
    var turn := -1;
    while turn <= 1
      invariant -1 <= turn <= 2
      invariant var seen := (if -1 < turn && Contains(arm, joint, raw - RAW_UNITS_PER_TURN) then 1 else 0)
                          + (if 0 < turn && Contains(arm, joint, raw as int) then 1 else 0)
                          + (if 1 < turn && Contains(arm, joint, raw + RAW_UNITS_PER_TURN) then 1 else 0);
                count == seen
      invariant count == 1 ==>
                  || (-1 < turn && Contains(arm, joint,
                      raw - RAW_UNITS_PER_TURN) && matched == raw - RAW_UNITS_PER_TURN)
                  || (0 < turn && Contains(arm, joint, raw as int) && matched == raw)
                  || (1 < turn && Contains(arm, joint, raw + RAW_UNITS_PER_TURN) && matched == raw + RAW_UNITS_PER_TURN)
    {
      var candidate := raw + turn * RAW_UNITS_PER_TURN;
      if Contains(arm, joint, candidate) {
        matched, count := candidate, count + 1;
      }
      turn := turn + 1;
    }
    r := if count != 1 then None else Some(matched);
  }

  /** The count limits of a row: non-negative and less than one turn wide. */
  lemma RowBounds(arm: nat, joint: nat) returns (lo: nat, hi: nat)
    requires Get(arm, joint).Some?
    ensures lo < hi < lo + RAW_UNITS_PER_TURN && hi < 2 * RAW_UNITS_PER_TURN
    ensures forall u: int :: Contains(arm, joint, u) <==> lo <= u <= hi
  {
    hide Table;
    var j := arm * ARM_JOINT_COUNT + joint;
    RowIsConsistent(j);
    lo, hi := Table()[j].rawMinimum, Table()[j].rawMaximum;
  }

  /** A count inside such limits has a reading exactly when it is the reading
      itself or one turn above it. */
  lemma Congruent(raw: u16, u: nat)
    requires u < 2 * RAW_UNITS_PER_TURN
    ensures ModuloRaw(u) == raw <==> raw < RAW_UNITS_PER_TURN && (u == raw || u == raw + RAW_UNITS_PER_TURN)
  {
    hide ModuloRaw;
    ModuloIsEuclidean(u);
  }

  /** Of the three candidates at most one is inside the limits. */
  lemma OneCandidate(arm: nat, joint: nat, raw: u16, lo: nat, hi: nat, u: int)
    requires lo < hi < lo + RAW_UNITS_PER_TURN && hi < 2 * RAW_UNITS_PER_TURN
    requires forall v: int :: Contains(arm, joint, v) <==> lo <= v <= hi
    ensures UnwrapModulo(arm, joint, raw) == Some(u)
       <==> lo <= u <= hi && raw < RAW_UNITS_PER_TURN && (u == raw || u == raw + RAW_UNITS_PER_TURN)
  {
    hide Contains;
  }

  /** Reading a reading back gives the one count in the limits congruent to it,
      and fails exactly when there is none. */
  lemma UnwrapIsExact(arm: nat, joint: nat, raw: u16)
    requires Get(arm, joint).Some?
    ensures forall u: int ::
              UnwrapModulo(arm, joint, raw) == Some(u) <==> Contains(arm, joint, u) && ModuloRaw(u) == raw
  {
    hide UnwrapModulo, Contains, ModuloRaw, Get;
    var lo, hi := RowBounds(arm, joint);
    forall u: int
      ensures UnwrapModulo(arm, joint, raw) == Some(u) <==> Contains(arm, joint, u) && ModuloRaw(u) == raw
    {
      OneCandidate(arm, joint, raw, lo, hi, u);
      if lo <= u <= hi {
        Congruent(raw, u);
      }
    }
  }

  // ---- Stepping a servo by a signed number of counts ----

  function StepModulo(arm: nat, joint: nat, present: u16, delta: int): Option<u16> {
    var read := UnwrapModulo(arm, joint, present);
    if read.None? then None
    else
      var target := read.value + delta;
      if !Contains(arm, joint, target) then None
      else
        ModuloIsEuclidean(target);
        Some(ModuloRaw(target))
  }

  /** A step that is allowed is undone by the opposite step, and moves the
      count it reads by exactly `delta`. */
  lemma StepsAreUndone(arm: nat, joint: nat, present: u16, delta: int)
    requires StepModulo(arm, joint, present, delta).Some?
    ensures var target := StepModulo(arm, joint, present, delta).value;
            && UnwrapModulo(arm, joint, target) == Some(UnwrapModulo(arm, joint, present).value + delta)
            && StepModulo(arm, joint, target, -delta) == Some(present)
  {
    assert Get(arm, joint).Some?;
    var target := StepModulo(arm, joint, present, delta).value;
    UnwrapIsExact(arm, joint, present);
    UnwrapIsExact(arm, joint, target);
    var u := UnwrapModulo(arm, joint, present).value;
    assert Contains(arm, joint, u) && ModuloRaw(u) == present;
  }

  /** `target` is what a servo reads after the step. */
  ghost predicate StepsTo(arm: nat, joint: nat, present: u16, delta: int, target: u16, u: int) {
    Contains(arm, joint, u) && u % 4096 == present && Contains(arm, joint, u + delta) && target == (u + delta) % 4096
  }

  /** A step is allowed exactly when some count inside the limits has the present
      reading and stays inside them by the step; the target is what that count
      then reads. */
  lemma StepIsExact(arm: nat, joint: nat, present: u16, delta: int, target: u16)
    requires Get(arm, joint).Some?
    ensures StepModulo(arm, joint, present, delta) == Some(target)
       <==> exists u: int :: StepsTo(arm, joint, present, delta, target, u)
  {
    hide UnwrapModulo, Contains, ModuloRaw, Get;
    UnwrapIsExact(arm, joint, present);
    var read := UnwrapModulo(arm, joint, present);
    if read.Some? {
      ModuloIsEuclidean(read.value);
      ModuloIsEuclidean(read.value + delta);
      if StepModulo(arm, joint, present, delta) == Some(target) {
        assert StepsTo(arm, joint, present, delta, target, read.value);
      }
    }
    forall u: int | StepsTo(arm, joint, present, delta, target, u)
      ensures read == Some(u)
    {
      ModuloIsEuclidean(u);
      ModuloIsEuclidean(u + delta);
    }
  }

  // ---- End to end ----

  /** The goals mean what was intended: mapped, and read back exactly. */
  ghost predicate GoalsFaithful(pos: Vec) {
    && FirstFailure(GoalMaps(), pos, 0) == JOINT_COUNT
    && forall j :: 0 <= j < JOINT_COUNT ==>
         UnwrapModulo(j / ARM_JOINT_COUNT, j % ARM_JOINT_COUNT, Goals(GoalMaps(), pos)[j])
           == Some(UnwrappedGoal(GoalMaps()[j], pos[j]))
  }

  lemma WithinLimitsIsFaithful(pos: Vec)
    requires WithinLimits(ExecutorLimits(), pos)
    ensures GoalsFaithful(pos)
  {
    forall j | 0 <= j < JOINT_COUNT
      ensures GoalVerdict(GoalMaps()[j], pos[j]) == MapOk
      ensures UnwrapModulo(j / ARM_JOINT_COUNT, j % ARM_JOINT_COUNT, Goals(GoalMaps(), pos)[j])
           == Some(UnwrappedGoal(GoalMaps()[j], pos[j]))
    {
      assert ExecutorLimits()[j].minimum <= pos[j] <= ExecutorLimits()[j].maximum;
      LimitsAreMapped(j, pos[j]);
      UnwrapIsExact(j / ARM_JOINT_COUNT, j % ARM_JOINT_COUNT, Goals(GoalMaps(), pos)[j]);
    }
  }

  /** End-to-end limit safety: with the operational table loaded, in every run
      and for any tick arguments, the goal map accepts whatever the executor
      dispatches, and each modulo-4096 goal reads back as the count meant. */
  lemma RunsAreFaithful(caps: HardCaps, events: seq<Event>)
    ensures LimitsOrdered(ExecutorLimits())
    ensures forall v :: v in Outputs(ExecInit(caps, ExecutorLimits()), events) ==> GoalsFaithful(v)
  {
    forall j | 0 <= j < JOINT_COUNT
      ensures ExecutorLimits()[j].minimum < ExecutorLimits()[j].maximum
    {
      RowIsConsistent(j);
    }
    var e := ExecInit(caps, ExecutorLimits());
    RunsAreSound(e, events);
    forall v | v in Outputs(e, events)
      ensures GoalsFaithful(v)
    {
      WithinLimitsIsFaithful(v);
    }
  }
}
