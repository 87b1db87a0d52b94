/** The command route in front of the buffered executor: decoding, the BEGIN,
    START and END flags, and validation-only admission. */
module BufferedRoute {
  import opened Words
  import opened StreamSession
  import opened SetpointQueue
  import opened BufferedExecutor
  import opened BufferedRuns
  import WireCodec

  const COMMAND_HEADER_SIZE := 8
  const COMMAND_SAMPLE_SIZE := 52
  const COMMAND_MAX_SAMPLES := 9

  const VALIDATION_ONLY: u16 := 1
  const CANDIDATE: u16 := 2
  const BEGIN: u16 := 4
  const START: u16 := 8
  const END: u16 := 16
  const FLAG_MASK: u16 := 31

  predicate Flag(flags: u16, bit: u16)
    requires bit != 0
  {
    flags / bit % 2 == 1
  }

  /** A candidate, and no unknown flag. */
  predicate FlagsOk(flags: u16) {
    Flag(flags, CANDIDATE) && flags <= FLAG_MASK
  }

  datatype Command = Command(flags: u16, firstTick: u32, samples: seq<Sample>)

  datatype CommandResult =
    | CommandOk | InvalidLength | InvalidFlags | InvalidArmMask | InvalidReserved | NonMonotonicTick
    | UnsupportedRightSlot | BadCommandState | CommandRejected

  datatype DecodeResult = Decoded(command: Command) | NotDecoded(why: CommandResult)

  // ---- Decoding ----

  function ReadPose(p: seq<u8>, at: nat): Pose
    requires at + 4 * LEFT_JOINTS <= |p|
  {
    seq(LEFT_JOINTS, j requires 0 <= j < LEFT_JOINTS => AsI32(ReadU32(p, at + 4 * j)))
  }

  /** The six slots of the other arm are zero. */
  predicate RightClear(p: seq<u8>, at: nat)
    requires at + 4 * LEFT_JOINTS <= |p|
  {
    forall j :: 0 <= j < LEFT_JOINTS ==> ReadU32(p, at + 4 * j) == 0
  }

  function CommandSample(p: seq<u8>, i: nat): Sample
    requires COMMAND_HEADER_SIZE + (i + 1) * COMMAND_SAMPLE_SIZE <= |p|
  {
    var at := COMMAND_HEADER_SIZE + i * COMMAND_SAMPLE_SIZE;
    Sample(Add32(ReadU32(p, 0), ReadU32(p, at)), ReadPose(p, at + 4))
  }

  function CommandSamples(p: seq<u8>, n: nat): (r: seq<Sample>)
    requires COMMAND_HEADER_SIZE + n * COMMAND_SAMPLE_SIZE <= |p|
    ensures |r| == n
  {
    seq(n, i requires 0 <= i < n => CommandSample(p, i))
  }

  /** The verdict of the first sample, from i on, that fails. */
  function SamplesResult(p: seq<u8>, n: nat, i: nat): CommandResult
    requires i <= n && COMMAND_HEADER_SIZE + n * COMMAND_SAMPLE_SIZE <= |p|
    decreases n - i
  {
    if i == n then CommandOk
    else if 0 < i && !TickAfter(CommandSample(p, i).tick, CommandSample(p, i - 1).tick) then NonMonotonicTick
    else if !RightClear(p, COMMAND_HEADER_SIZE + i * COMMAND_SAMPLE_SIZE + 28) then UnsupportedRightSlot
    else SamplesResult(p, n, i + 1)
  }

  function DecodeCommand(p: seq<u8>, flags: u16): DecodeResult {
    if |p| < COMMAND_HEADER_SIZE then NotDecoded(InvalidLength)
    else if p[4] == 0 || p[4] > COMMAND_MAX_SAMPLES then NotDecoded(InvalidLength)
    else if |p| != COMMAND_HEADER_SIZE + p[4] * COMMAND_SAMPLE_SIZE then NotDecoded(InvalidLength)
    else if !FlagsOk(flags) then NotDecoded(InvalidFlags)
    else if p[5] != 1 then NotDecoded(InvalidArmMask)
    else if ReadU16(p, 6) != 0 then NotDecoded(InvalidReserved)
    else
      var verdict := SamplesResult(p, p[4], 0);
      if verdict != CommandOk then NotDecoded(verdict)
      else Decoded(Command(flags, ReadU32(p, 0), CommandSamples(p, p[4])))
  }

  /** The decoder as the firmware runs it. */
  method DecodeCommandLoop(p: seq<u8>, flags: u16) returns (r: DecodeResult)
    ensures r == DecodeCommand(p, flags)
  {
    hide TickAfter, Add32;
    if |p| < COMMAND_HEADER_SIZE { return NotDecoded(InvalidLength); }
    var n: nat := p[4];
    if n == 0 || n > COMMAND_MAX_SAMPLES { return NotDecoded(InvalidLength); }
    if |p| != COMMAND_HEADER_SIZE + n * COMMAND_SAMPLE_SIZE { return NotDecoded(InvalidLength); }
    if !FlagsOk(flags) { return NotDecoded(InvalidFlags); }
    if p[5] != 1 { return NotDecoded(InvalidArmMask); }
    if ReadU16(p, 6) != 0 { return NotDecoded(InvalidReserved); }
    var samples: seq<Sample> := [];
    for i := 0 to n
      invariant samples == CommandSamples(p, n)[..i]
      invariant SamplesResult(p, n, 0) == SamplesResult(p, n, i)
    {
      var at := COMMAND_HEADER_SIZE + i * COMMAND_SAMPLE_SIZE;
      var tick := Add32(ReadU32(p, 0), ReadU32(p, at));
      if 0 < i && !TickAfter(tick, samples[i - 1].tick) { return NotDecoded(NonMonotonicTick); }
      var pos, clear := ReadSample(p, at);
      if !clear { return NotDecoded(UnsupportedRightSlot); }
      samples := samples + [Sample(tick, pos)];
    }
    assert CommandSamples(p, n)[..n] == CommandSamples(p, n);
    r := Decoded(Command(flags, ReadU32(p, 0), samples));
  }

  /** The joint loop: one arm's positions, the other arm's slots. */
  method ReadSample(p: seq<u8>, at: nat) returns (pos: Pose, clear: bool)
    requires at + COMMAND_SAMPLE_SIZE <= |p|
    ensures clear == RightClear(p, at + 28)
    ensures clear ==> pos == ReadPose(p, at + 4)
  {
    hide ReadU32;
    var joints: seq<i32> := [];
    for j := 0 to LEFT_JOINTS
      invariant joints == ReadPose(p, at + 4)[..j]
      invariant forall k :: 0 <= k < j ==> ReadU32(p, at + 28 + 4 * k) == 0
    {
      joints := joints + [AsI32(ReadU32(p, at + 4 + 4 * j))];
      if ReadU32(p, at + 28 + 4 * j) != 0 { return ZERO_SAMPLE.pos, false; }
    }
    assert ReadPose(p, at + 4)[..LEFT_JOINTS] == ReadPose(p, at + 4);
    return joints, true;
  }

  // ---- What is decoded, byte for byte ----

  /** A one-arm pose in the two-arm wire layout. */
  function Widened(pos: Pose): StreamContract.Vec {
    pos + [0, 0, 0, 0, 0, 0]
  }

  function WidenedSamples(samples: seq<Sample>): (r: seq<StreamContract.Setpoint>)
    ensures |r| == |samples|
  {
    seq(|samples|, i requires 0 <= i < |samples| => StreamContract.Setpoint(samples[i].tick, Widened(samples[i].pos)))
  }

  function CommandHeader(first: u32, n: u8): (h: seq<u8>)
    ensures |h| == COMMAND_HEADER_SIZE
  {
    WriteU32(first) + [n, 1] + WriteU16(0)
  }

  function CommandBytes(c: Command): seq<u8>
    requires 0 < |c.samples| <= COMMAND_MAX_SAMPLES
  {
    CommandHeader(c.firstTick, |c.samples|) + WireCodec.SamplesBytes(c.firstTick, WidenedSamples(c.samples))
  }

  /** Twelve words read as a widened pose exactly when six are it and six are zero. */
  lemma WidenedReads(p: seq<u8>, at: nat, pos: Pose)
    requires at + 48 <= |p|
    ensures StreamContract.ReadVec(p, at) == Widened(pos) <==> ReadPose(p, at) == pos && RightClear(p, at + 24)
  {
    hide ReadU32;
    var v := StreamContract.ReadVec(p, at);
    if v == Widened(pos) {
      forall j | 0 <= j < LEFT_JOINTS
        ensures ReadPose(p, at)[j] == pos[j] && ReadU32(p, at + 24 + 4 * j) == 0
      {
        assert v[j] == Widened(pos)[j] && v[j + 6] == Widened(pos)[j + 6];
        assert AsI32(ReadU32(p, at + 4 * (j + 6))) == 0;
      }
      assert ReadPose(p, at) == pos;
    }
    if ReadPose(p, at) == pos && RightClear(p, at + 24) {
      forall j | 0 <= j < 12
        ensures v[j] == Widened(pos)[j]
      {
        if j < LEFT_JOINTS {
          assert ReadPose(p, at)[j] == pos[j];
        } else {
          assert ReadU32(p, at + 24 + 4 * (j - 6)) == 0;
        }
      }
      assert v == Widened(pos);
    }
  }

  lemma {:induction false} ResultExact(p: seq<u8>, n: nat, i: nat)
    requires i <= n && COMMAND_HEADER_SIZE + n * COMMAND_SAMPLE_SIZE <= |p|
    ensures SamplesResult(p, n, i) == CommandOk <==>
              forall k :: i <= k < n ==>
                && (0 < k ==> TickAfter(CommandSamples(p, n)[k].tick, CommandSamples(p, n)[k - 1].tick))
                && RightClear(p, COMMAND_HEADER_SIZE + k * COMMAND_SAMPLE_SIZE + 28)
    decreases n - i
  {
    hide TickAfter, RightClear, CommandSample;
    if i < n {
      ResultExact(p, n, i + 1);
      assert CommandSamples(p, n)[i] == CommandSample(p, i);
      assert 0 < i ==> CommandSamples(p, n)[i - 1] == CommandSample(p, i - 1);
    }
  }

  lemma SampleSpelledHere(p: seq<u8>, i: nat, s: Sample)
    requires COMMAND_HEADER_SIZE + (i + 1) * COMMAND_SAMPLE_SIZE <= |p|
    ensures var at := COMMAND_HEADER_SIZE + i * COMMAND_SAMPLE_SIZE;
            p[at..at + COMMAND_SAMPLE_SIZE]
              == WireCodec.SampleBytes(Sub32(s.tick, ReadU32(p, 0)), Widened(s.pos))
            <==> CommandSample(p, i) == s && RightClear(p, at + 28)
  {
    hide ReadU32, StreamContract.ReadVec, WireCodec.SampleBytes, RightClear, ReadPose;
    var at := COMMAND_HEADER_SIZE + i * COMMAND_SAMPLE_SIZE;
    WireCodec.SampleSpelled(p, at, ReadU32(p, 0), StreamContract.Setpoint(s.tick, Widened(s.pos)));
    WidenedReads(p, at + 4, s.pos);
  }

  /** The sample part spells a command's samples exactly when they read back and
      the other arm's slots are clear. */
  lemma SamplesSpelledHere(p: seq<u8>, samples: seq<Sample>)
    requires |p| == COMMAND_HEADER_SIZE + COMMAND_SAMPLE_SIZE * |samples|
    ensures p[COMMAND_HEADER_SIZE..] == WireCodec.SamplesBytes(ReadU32(p, 0), WidenedSamples(samples))
       <==> && CommandSamples(p, |samples|) == samples
            && forall k :: 0 <= k < |samples| ==> RightClear(p, COMMAND_HEADER_SIZE + k * COMMAND_SAMPLE_SIZE + 28)
  {
    hide ReadU32, WireCodec.SampleBytes, WireCodec.SamplesBytes, RightClear, CommandSample;
    var first, tail, wide := ReadU32(p, 0), p[COMMAND_HEADER_SIZE..], WidenedSamples(samples);
    forall i | 0 <= i < |samples|
      ensures tail[COMMAND_SAMPLE_SIZE * i..COMMAND_SAMPLE_SIZE * (i + 1)]
                == WireCodec.SampleBytes(Sub32(wide[i].tick, first), wide[i].pos)
         <==> CommandSample(p, i) == samples[i] && RightClear(p, COMMAND_HEADER_SIZE + i * COMMAND_SAMPLE_SIZE + 28)
    {
      var at := COMMAND_HEADER_SIZE + i * COMMAND_SAMPLE_SIZE;
      assert tail[COMMAND_SAMPLE_SIZE * i..COMMAND_SAMPLE_SIZE * (i + 1)] == p[at..at + COMMAND_SAMPLE_SIZE];
      SampleSpelledHere(p, i, samples[i]);
    }
    if tail == WireCodec.SamplesBytes(first, wide) {
      forall i | 0 <= i < |samples|
        ensures CommandSamples(p, |samples|)[i] == samples[i]
        ensures RightClear(p, COMMAND_HEADER_SIZE + i * COMMAND_SAMPLE_SIZE + 28)
      {
        WireCodec.SampleSlice(first, wide, i);
      }
      assert CommandSamples(p, |samples|) == samples;
    }
    if CommandSamples(p, |samples|) == samples
       && forall k :: 0 <= k < |samples| ==> RightClear(p, COMMAND_HEADER_SIZE + k * COMMAND_SAMPLE_SIZE + 28) {
      forall i | 0 <= i < |samples|
        ensures CommandSample(p, i) == samples[i]
      {
        assert CommandSamples(p, |samples|)[i] == samples[i];
      }
      WireCodec.SlicesMakeAll(tail, first, wide);
    }
  }

  lemma HeaderSpelledHere(p: seq<u8>, first: u32, n: u8)
    requires COMMAND_HEADER_SIZE <= |p|
    ensures p[..COMMAND_HEADER_SIZE] == CommandHeader(first, n)
       <==> ReadU32(p, 0) == first && p[4] == n && p[5] == 1 && ReadU16(p, 6) == 0
  {
    hide ReadU32, WriteU32;
    var h := p[..COMMAND_HEADER_SIZE];
    WireCodec.WordSpelled(p, 0, first);
    assert h == p[0..4] + [p[4], p[5]] + [p[6], p[7]];
    if h == CommandHeader(first, n) {
      assert h[0..4] == p[0..4] && h[4] == p[4] && h[5] == p[5] && h[6] == p[6] && h[7] == p[7];
    }
  }

  /** The decoder accepts exactly the byte strings of well-formed commands. */
  lemma DecodeIsExact(p: seq<u8>, flags: u16, c: Command)
    ensures DecodeCommand(p, flags) == Decoded(c)
       <==> && FlagsOk(flags) && c.flags == flags
            && 0 < |c.samples| <= COMMAND_MAX_SAMPLES && Increasing(c.samples) && p == CommandBytes(c)
  {
    hide ReadU32, ReadU16, WireCodec.SamplesBytes, CommandHeader, RightClear, CommandSamples, SamplesResult,
         TickAfter, FlagsOk;
    if 0 < |c.samples| <= COMMAND_MAX_SAMPLES && |p| == COMMAND_HEADER_SIZE + COMMAND_SAMPLE_SIZE * |c.samples| {
      HeaderSpelledHere(p, c.firstTick, |c.samples|);
      SamplesSpelledHere(p, c.samples);
      ResultExact(p, |c.samples|, 0);
      assert p == p[..COMMAND_HEADER_SIZE] + p[COMMAND_HEADER_SIZE..];
      if p == CommandBytes(c) {
        assert p[..COMMAND_HEADER_SIZE] == CommandHeader(c.firstTick, |c.samples|);
        assert p[COMMAND_HEADER_SIZE..] == WireCodec.SamplesBytes(c.firstTick, WidenedSamples(c.samples));
      }
    }
  }

  /** The other arm's slots of some sample are not clear. */
  ghost predicate RightUsed(p: seq<u8>, n: nat)
    requires COMMAND_HEADER_SIZE + n * COMMAND_SAMPLE_SIZE <= |p|
  {
    exists k :: 0 <= k < n && !RightClear(p, COMMAND_HEADER_SIZE + k * COMMAND_SAMPLE_SIZE + 28)
  }

  lemma {:induction false} ResultReason(p: seq<u8>, n: nat, i: nat)
    requires i <= n && COMMAND_HEADER_SIZE + n * COMMAND_SAMPLE_SIZE <= |p|
    ensures var why := SamplesResult(p, n, i);
            && why in {CommandOk, NonMonotonicTick, UnsupportedRightSlot}
            && (why == NonMonotonicTick ==> !Increasing(CommandSamples(p, n)))
            && (why == UnsupportedRightSlot ==> RightUsed(p, n))
    decreases n - i
  {
    hide TickAfter, RightClear, CommandSample;
    if i < n {
      ResultReason(p, n, i + 1);
      assert CommandSamples(p, n)[i] == CommandSample(p, i);
      assert 0 < i ==> CommandSamples(p, n)[i - 1] == CommandSample(p, i - 1);
    }
  }

  /** Why a command is not decoded. */
  lemma DecodeReasons(p: seq<u8>, flags: u16)
    requires DecodeCommand(p, flags).NotDecoded?
    ensures var n: nat := if |p| > 4 then p[4] else 0;
            match DecodeCommand(p, flags).why
            case InvalidLength => |p| < 8 || !(1 <= n <= 9) || |p| != 8 + 52 * n
            case InvalidFlags => flags / 2 % 2 == 0 || flags > 31
            case InvalidArmMask => |p| >= 8 && p[5] != 1
            case InvalidReserved => |p| >= 8 && (p[6] != 0 || p[7] != 0)
            case NonMonotonicTick => |p| == 8 + 52 * n && !Increasing(CommandSamples(p, n))
            case UnsupportedRightSlot => |p| == 8 + 52 * n && RightUsed(p, n)
            case _ => false
  {
    hide SamplesResult, CommandSamples, RightUsed;
    if |p| >= 8 && 1 <= p[4] <= 9 && |p| == 8 + 52 * (p[4] as int) {
      ResultReason(p, p[4], 0);
    }
  }

  // ---- The route ----

  datatype Route = Route(exec: Exec, limits: JointLimits, sequence: u32, batches: u32, active: bool,
                         startRequested: bool, started: bool)

  function RouteInit(minimumStart: nat, allowedLateness: u32, limits: JointLimits): Option<Route> {
    match Init(minimumStart, allowedLateness)
    case None => None
    case Some(exec) => Some(Route(exec, limits, 0, 0, false, false, false))
  }

  /** The flags against the trajectory in progress. */
  predicate OutOfPlace(r: Route, flags: u16) {
    || (Flag(flags, BEGIN) && r.active)
    || (!Flag(flags, BEGIN) && !r.active)
    || (Flag(flags, START) && r.startRequested)
  }

  function RouteAdmit(r: Route, c: Command, request: u32, lead: Lead): (Route, CommandResult) {
    if !FlagsOk(c.flags) then (r, InvalidFlags)
    else if OutOfPlace(r, c.flags) then (r, BadCommandState)
    else
      var (exec, result) := AdmitBatch(r.exec, c.samples, lead, r.limits);
      if Flag(c.flags, VALIDATION_ONLY) then
        (r.(exec := exec.(queue := r.exec.queue, diag := r.exec.diag)),
            if result == Ok then CommandOk else CommandRejected)
      else if result != Ok then (r.(exec := exec), CommandRejected)
      else
        var begun := if Flag(c.flags, BEGIN) then r.(exec := exec, active := true,
            sequence := request) else r.(exec := exec);
        var asked := if Flag(c.flags, START) then begun.(startRequested := true) else begun;
        var (closed, ended) := if Flag(c.flags, END) then MarkInputComplete(asked.exec) else (asked.exec, Ok);
        if ended != Ok then (asked.(exec := closed), BadCommandState)
        else (asked.(exec := closed, batches := Add32(asked.batches, 1)), CommandOk)
  }

  function RouteStart(r: Route, tick: u32, pos: Pose): (Route, Result) {
    if !r.active || !r.startRequested || r.started then (r, BadState)
    else
      var (exec, result) := Start(r.exec, tick, pos, r.limits);
      (r.(exec := exec, started := result == Ok), result)
  }

  /** A dry run changes nothing, and returns exactly what the same command
      without the flag would return, END included. */
  lemma DryRunIsFaithful(r: Route, c: Command, request: u32, lead: Lead)
    requires Flag(c.flags, VALIDATION_ONLY)
    ensures RouteAdmit(r, c, request, lead).0 == r
    ensures RouteAdmit(r, c, request, lead).1 == RouteAdmit(r, c.(flags := c.flags - VALIDATION_ONLY), request, lead).1
  {
    hide PushVerdict, Pushed;
    OtherFlagsKept(c.flags);
  }

  lemma OtherFlagsKept(flags: u16)
    requires Flag(flags, VALIDATION_ONLY)
    ensures !Flag(flags - VALIDATION_ONLY, VALIDATION_ONLY) && (FlagsOk(flags - VALIDATION_ONLY) <==> FlagsOk(flags))
    ensures forall bit :: bit in {CANDIDATE, BEGIN, START, END} ==>
              (Flag(flags - VALIDATION_ONLY, bit) <==> Flag(flags, bit))
  {
    var half: int := (flags - 1) / 2;
    assert flags == 2 * half + 1 && flags - VALIDATION_ONLY == 2 * half;
    assert flags / 2 == half && flags / 4 == half / 2 && flags / 8 == half / 4 && flags / 16 == half / 8;
  }

  /** END reached through an accepted admission always closes the input. */
  lemma EndCloses(r: Route, c: Command, request: u32, lead: Lead)
    requires !Flag(c.flags, VALIDATION_ONLY) && Flag(c.flags, END)
    ensures var (after, result) := RouteAdmit(r, c, request, lead);
            (result == CommandOk ==> after.exec.diag.inputComplete && after.exec.queue == r.exec.queue + c.samples)
            && (result != CommandOk ==>
                  after.exec.queue == r.exec.queue && after.exec.diag.inputComplete == r.exec.diag.inputComplete)
  {
    hide PushVerdict;
  }

  // ---- Runs of a route ----

  datatype RouteEvent =
    | RouteCommand(command: Command, request: u32, lead: Lead)
    | RouteBegin(tick: u32, pos: Pose)
    | RouteStep(now: u32)
    | RouteInterrupt(what: Interruption, now: u32)

  function HandleRoute(r: Route, event: RouteEvent): Route {
    match event
    case RouteCommand(c, request, lead) => RouteAdmit(r, c, request, lead).0
    case RouteBegin(tick, pos) => RouteStart(r, tick, pos).0
    case RouteStep(now) => r.(exec := Step(r.exec, now).0)
    case RouteInterrupt(what, now) => r.(exec := Interrupt(r.exec, what, now).0)
  }

  ghost predicate RouteGood(r: Route) {
    && Good(r.exec, r.limits)
    && (r.started ==> r.startRequested) && (r.startRequested ==> r.active)
    && (r.exec.diag.state == Running ==> r.started)
    && (!r.active ==> r.exec.queue == [] && !r.exec.diag.inputComplete)
  }

  lemma RouteKeeps(r: Route, event: RouteEvent)
    requires RouteGood(r)
    ensures RouteGood(HandleRoute(r, event)) && HandleRoute(r, event).limits == r.limits
    ensures r.active ==> HandleRoute(r, event).active
    ensures r.started ==> HandleRoute(r, event).started
  {
    hide Good, Flag, PushVerdict, FlagsOk, StepApply, Between, Step;
    match event
    case RouteCommand(c, request, lead) =>
      HandleKeeps(r.exec, r.limits, AdmitEvent(c.samples, lead));
      var admitted := AdmitBatch(r.exec, c.samples, lead, r.limits).0;
      HandleKeeps(admitted, r.limits, CompleteEvent);
    case RouteBegin(tick, pos) => HandleKeeps(r.exec, r.limits, StartEvent(tick, pos));
    case RouteStep(now) =>
      HandleKeeps(r.exec, r.limits, StepEvent(now));
      StepShrinks(r.exec, now);
    case RouteInterrupt(what, now) => HandleKeeps(r.exec, r.limits, InterruptEvent(what, now));
  }

  lemma StepShrinks(e: Exec, now: u32)
    ensures var after := Step(e, now).0;
            && (e.queue == [] ==> after.queue == [])
            && (after.diag.state == Running ==> e.diag.state == Running)
            && after.diag.inputComplete == e.diag.inputComplete
  {
    hide Between;
  }

  function RunRoute(r: Route, events: seq<RouteEvent>): Route
    decreases |events|
  {
    if events == [] then r else RunRoute(HandleRoute(r, events[0]), events[1..])
  }

  /** Every run of a route keeps the executor's invariant under the route's own
      limits, and runs only what was begun and asked to start. */
  lemma {:induction false} RouteRunsAreGood(r: Route, events: seq<RouteEvent>)
    requires RouteGood(r)
    ensures RouteGood(RunRoute(r, events)) && RunRoute(r, events).limits == r.limits
    decreases |events|
  {
    hide RouteGood, HandleRoute;
    if events != [] {
      RouteKeeps(r, events[0]);
      RouteRunsAreGood(HandleRoute(r, events[0]), events[1..]);
    }
  }

  lemma RouteInitIsGood(minimumStart: nat, allowedLateness: u32, limits: JointLimits)
    requires RouteInit(minimumStart, allowedLateness, limits).Some?
    ensures RouteGood(RouteInit(minimumStart, allowedLateness, limits).value)
    ensures RouteInit(minimumStart, allowedLateness, limits).value.limits == limits
  {
  }

  /** The same from initialisation, under the limits it was given. */
  lemma RouteRunsFromInitAreGood(minimumStart: nat, allowedLateness: u32, limits: JointLimits,
                                 events: seq<RouteEvent>)
    requires RouteInit(minimumStart, allowedLateness, limits).Some?
    ensures var r := RunRoute(RouteInit(minimumStart, allowedLateness, limits).value, events);
            RouteGood(r) && r.limits == limits
  {
    hide RouteGood, HandleRoute, RouteInit;
    RouteInitIsGood(minimumStart, allowedLateness, limits);
    RouteRunsAreGood(RouteInit(minimumStart, allowedLateness, limits).value, events);
  }

  // ---- What a route was told ----

  /** The commands accepted so far: which request began the trajectory, whether
      it was asked to start and its input closed, whether it was started, and
      how many there were. */
  datatype Tale = Tale(begun: Option<u32>, asked: bool, closed: bool, started: bool, accepted: nat)

  /** The bits of the flags, lowest first: validation only, candidate, begin,
      start, end. */
  function Bit(flags: u16, weight: nat): bool
    requires weight in {1, 2, 4, 8, 16}
  {
    flags / weight % 2 == 1
  }

  function TellRoute(t: Tale, r: Route, event: RouteEvent): Tale {
    match event
    case RouteCommand(c, request, lead) =>
      if RouteAdmit(r, c, request, lead).1 != CommandOk || Bit(c.flags, 1) then t
      else Tale(if Bit(c.flags, 4) then Some(request) else t.begun, t.asked || Bit(c.flags, 8),
                t.closed || Bit(c.flags, 16), t.started, t.accepted + 1)
    case RouteBegin(tick, pos) => t.(started := t.started || RouteStart(r, tick, pos).1 == Ok)
    case _ => t
  }

  /** The route's own record of it. */
  ghost predicate Recorded(t: Tale, r: Route) {
    && (r.active <==> t.begun.Some?) && (t.begun.Some? ==> r.sequence == t.begun.value)
    && r.startRequested == t.asked && r.started == t.started && r.exec.diag.inputComplete == t.closed
    && r.batches as int == t.accepted % TWO_32
  }

  lemma CommandRecorded(t: Tale, r: Route, c: Command, request: u32, lead: Lead)
    requires Recorded(t, r)
    ensures Recorded(TellRoute(t, r, RouteCommand(c, request, lead)), RouteAdmit(r, c, request, lead).0)
  {
    hide AdmitBatch, FlagsOk, Flag, Bit;
    BitsAre(c.flags);
    AdmitKeepsInput(r.exec, c.samples, lead, r.limits);
    CountsOn(t.accepted, r.batches);
  }

  lemma BitsAre(flags: u16)
    ensures Bit(flags, 1) == Flag(flags, VALIDATION_ONLY) && Bit(flags, 2) == Flag(flags, CANDIDATE)
    ensures Bit(flags, 4) == Flag(flags, BEGIN) && Bit(flags, 8) == Flag(flags, START)
    ensures Bit(flags, 16) == Flag(flags, END)
  {
  }

  lemma AdmitKeepsInput(e: Exec, samples: seq<Sample>, lead: Lead, limits: JointLimits)
    ensures var (after, answer) := AdmitBatch(e, samples, lead, limits);
            && after.diag.inputComplete == e.diag.inputComplete && after.diag.state == e.diag.state
            && (answer == Ok ==> Accepting(e.diag.state) && !e.diag.inputComplete)
  {
    hide PushVerdict;
  }

  lemma CountsOn(count: nat, shown: u32)
    requires shown as int == count % TWO_32
    ensures Add32(shown, 1) as int == (count + 1) % TWO_32
  {
    var q := count / TWO_32;
    assert count == q * TWO_32 + shown;
    if shown == TWO_32 - 1 {
      assert count + 1 == (q + 1) * TWO_32;
    } else {
      assert (count + 1) / TWO_32 == q;
    }
  }

  lemma TellRecorded(t: Tale, r: Route, event: RouteEvent)
    requires Recorded(t, r)
    ensures Recorded(TellRoute(t, r, event), HandleRoute(r, event))
  {
    hide RouteAdmit, Step, PoseOk, TickAfter;
    match event
    case RouteCommand(c, request, lead) => CommandRecorded(t, r, c, request, lead);
    case RouteStep(now) => StepShrinks(r.exec, now);
    case _ =>
  }

  function TellRouteAll(t: Tale, r: Route, events: seq<RouteEvent>): Tale
    decreases |events|
  {
    if events == [] then t else TellRouteAll(TellRoute(t, r, events[0]), HandleRoute(r, events[0]), events[1..])
  }

  /** In every run the route's flags, request and count are those of the commands
      it accepted. */
  lemma {:induction false} RouteRunsRecord(t: Tale, r: Route, events: seq<RouteEvent>)
    requires Recorded(t, r)
    ensures Recorded(TellRouteAll(t, r, events), RunRoute(r, events))
    decreases |events|
  {
    hide Recorded, TellRoute, HandleRoute;
    if events != [] {
      TellRecorded(t, r, events[0]);
      RouteRunsRecord(TellRoute(t, r, events[0]), HandleRoute(r, events[0]), events[1..]);
    }
  }

  lemma RouteInitRecorded(minimumStart: nat, allowedLateness: u32, limits: JointLimits)
    requires RouteInit(minimumStart, allowedLateness, limits).Some?
    ensures Recorded(Tale(None, false, false, false, 0), RouteInit(minimumStart, allowedLateness, limits).value)
  {
  }

  /** What a command is answered: its flags must bear the candidate bit and no
      unknown one; a trajectory begins exactly once, and only what was begun goes
      on; it is asked to start at most once; then the executor's own admission
      decides. */
  lemma CommandDecides(t: Tale, r: Route, c: Command, request: u32, lead: Lead)
    requires Recorded(t, r)
    ensures var answer := RouteAdmit(r, c, request, lead).1;
            var flagged := Bit(c.flags, 2) && c.flags < 32;
            var inPlace := && (Bit(c.flags, 4) <==> t.begun.None?) && !(Bit(c.flags, 8) && t.asked);
            && (answer == InvalidFlags <==> !flagged)
            && (answer == BadCommandState <==> flagged && !inPlace)
            && (answer == CommandOk <==>
                  flagged && inPlace && AdmitBatch(r.exec, c.samples, lead, r.limits).1 == Ok)
            && answer in {InvalidFlags, BadCommandState, CommandOk, CommandRejected}
  {
    hide AdmitBatch, Flag, Bit;
    BitsAre(c.flags);
    AdmitKeepsInput(r.exec, c.samples, lead, r.limits);
  }

  /** A route starts exactly when it was begun, was asked to and has not yet,
      and its executor starts. */
  lemma BeginDecides(t: Tale, r: Route, tick: u32, pos: Pose)
    requires Recorded(t, r)
    ensures var (after, answer) := RouteStart(r, tick, pos);
            && (t.begun.None? || !t.asked || t.started ==> answer == BadState && after == r)
            && (t.begun.Some? && t.asked && !t.started ==>
                  (after.exec, answer) == Start(r.exec, tick, pos, r.limits))
  {
  }
}
