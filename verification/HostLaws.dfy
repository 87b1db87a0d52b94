/** What the host's operations may and may not do: who is heard, which epochs are
    used, what an end is, and where points are placed. */
module HostLaws {
  import opened Words
  import opened StreamContract
  import opened StreamSession
  import opened StreamExecutor
  import opened ExecutorRuns
  import opened PlanRefinement
  import opened WireCodec
  import opened HostHealth
  import opened HostAdapter
  import opened HostRuns
  import opened HostAdmission

  // ---- Who is heard ----

  /** The action names somebody other than the owner. */
  ghost predicate Foreign(s: System, a: Action) {
    match a
    case StartAction(owner, _, _, _, _, _, _, _) => s.host.owner.Some? && s.host.owner.value != owner
    case AppendAction(owner, _, _, _) => s.host.owner.Some? && s.host.owner.value != owner
    case SpliceAction(owner, _, _, _, _) => s.host.owner.Some? && s.host.owner.value != owner
    case PollAction(owner, _, _, _) => s.host.owner.Some? && s.host.owner.value != owner
    case StopAction(owner, _) => s.host.owner.Some? && s.host.owner.value != owner
    case _ => false
  }

  /** Once somebody owns the adapter, nobody else changes anything, on either
      side; and nobody without a name is ever heard. */
  lemma OthersChangeNothing(u: Setup, s: System, a: Action)
    requires Foreign(s, a)
    ensures Perform(u, s, a) == s && AnswerOf(u, s, a) == Refused
  {
    hide HostAppendAt, HostSpliceAt, HostPump, HostCheck, HostOpen, FirstRoute, SpliceArgumentsOk;
  }

  /** The adapter is never ready or active without a pose it was prepared at. */
  ghost predicate Posed(h: Host) {
    h.state == Ready || h.state == Active ==> h.prepared.Some?
  }

  /** What every operation keeps of the host: its owner, a pose while it is ready
      or active, and the epoch, which may go on by one for a new owner, and by
      one for a start or a splice. */
  ghost predicate Carries(h: Host, after: Host, mayMove: bool) {
    && (h.owner.Some? ==> after.owner == h.owner)
    && (Posed(h) ==> Posed(after))
    && (after.epoch == h.epoch || (after.epoch == NextEpoch(h.epoch) && (h.owner.None? || mayMove))
        || (after.epoch == NextEpoch(NextEpoch(h.epoch)) && h.owner.None? && mayMove))
  }

  lemma AppendCarries(u: Setup, h: Host, l: Ledger, owner: string, points: seq<Point>, beat: Option<u32>, trip: Trip)
    ensures Carries(h, HostAppend(u.cfg, u.limits, h, l, owner, points, beat, trip).0, false)
  {
    hide SendBatch, FutureRoute, PointsOk, HostTick, HostTickAfter, Distance, AppendRequest, Placed, NextEpoch;
  }

  lemma SpliceCarries(u: Setup, h: Host, l: Ledger, owner: string, points: seq<Point>, offset: int, beat: Option<u32>,
                      trip: Trip)
    ensures Carries(h, HostSplice(u.cfg, u.limits, h, l, owner, points, offset, beat, trip).0, true)
  {
    hide SendBatch, FutureRoute, PointsOk, HostTick, HostTickAfter, Distance, InterpolateRoute, RetainedRoute,
         SpliceRequest, Placed, NextEpoch, SpliceArgumentsOk;
  }

  lemma OpenCarries(cfg: Config, h: Host, l: Ledger, first: seq<Setpoint>, later: seq<Setpoint>, finite: bool,
                    opening: Trip, trip: Trip)
    ensures var after := HostOpen(cfg, h, l, first, later, finite, opening, trip).0;
            after.owner == h.owner && after.epoch == h.epoch && after.prepared == h.prepared
  {
    hide SendBatch, SendOpen, AppendRequest, PolicyRequest;
  }

  lemma StartCarries(u: Setup, h: Host, l: Ledger, owner: string, points: seq<Point>, finite: bool,
                     anchor: Option<Vec>, enabled: bool, beat: Option<u32>, opening: Trip, trip: Trip)
    ensures Carries(h, HostStart(u.cfg, u.limits, u.authorized, h, l, owner, points, finite, anchor, enabled, beat,
                                 opening, trip).0, true)
  {
    hide HostOpen, FirstRoute, Placed, NextEpoch;
    var h1 := if h.armed then h else h.(prepared := anchor);
    if h1.prepared.Some? && Claim(h1, owner).Some? && beat.Some? {
      var count := FirstRoute(u.cfg, u.limits, points, finite, h1.prepared.value);
      if count.Some? {
        var claimed := Claim(h1, owner).value;
        var armed := claimed.(armed := true, epoch := if h1.owner.Some? then NextEpoch(h1.epoch) else claimed.epoch);
        OpenCarries(u.cfg, armed, l, Placed(points[..count.value], beat.value, 0),
                    Placed(points[count.value..], beat.value, 0), finite, opening, trip);
      }
    }
  }

  lemma PollCarries(u: Setup, h: Host, l: Ledger, owner: string, beat: Option<u32>, trip: Trip, replies: PollReplies)
    ensures Carries(h, HostPoll(u.cfg, h, l, owner, beat, trip, replies).0, false)
  {
    hide SendBatch, FutureRoute, HostTickAfter, Distance, AppendRequest, HostAdapter.Settled, ReadyCount, AllWell,
         MeasuredPose, Busy, NextEpoch;
  }

  lemma ActionCarries(u: Setup, s: System, a: Action)
    ensures Carries(s.host, Perform(u, s, a).host, a.StartAction? || a.SpliceAction?)
  {
    hide HostAppend, HostSplice, HostStart, HostPoll, Book, NextEpoch;
    match a
    case AppendAction(owner, points, beat, trip) => AppendCarries(u, s.host, s.ledger, owner, points, beat, trip);
    case SpliceAction(owner, points, offset, beat, trip) =>
      SpliceCarries(u, s.host, s.ledger, owner, points, offset, beat, trip);
    case StartAction(owner, points, finite, anchor, enabled, beat, opening, trip) =>
      StartCarries(u, s.host, s.ledger, owner, points, finite, anchor, enabled, beat, opening, trip);
    case PollAction(owner, beat, trip, replies) => PollCarries(u, s.host, s.ledger, owner, beat, trip, replies);
    case StopAction(owner, latched) => StopCarries(s.host, owner, latched);
    case _ =>
  }

  lemma StopCarries(h: Host, owner: string, latched: bool)
    ensures Carries(h, HostStop(h, owner, latched).0, false)
  {
    hide NextEpoch;
  }

  /** The adapter keeps its first owner for good. */
  lemma {:induction false} OwnerStaysForGood(u: Setup, s: System, actions: seq<Action>)
    requires s.host.owner.Some?
    ensures PerformAll(u, s, actions).host.owner == s.host.owner
    decreases |actions|
  {
    hide Perform, Posed;
    if actions != [] {
      ActionCarries(u, s, actions[0]);
      OwnerStaysForGood(u, Perform(u, s, actions[0]), actions[1..]);
    }
  }

  lemma NamelessIsRefused(u: Setup, s: System, a: Action)
    requires match a
             case AppendAction(owner, _, _, _) => owner == ""
             case SpliceAction(owner, _, _, _, _) => owner == ""
             case PollAction(owner, _, _, _) => owner == ""
             case StopAction(owner, _) => owner == ""
             case _ => false
    ensures Perform(u, s, a) == s && AnswerOf(u, s, a) == Refused
  {
    hide HostAppendAt, HostSpliceAt, HostPump, HostCheck, HostOpen, FirstRoute, SpliceArgumentsOk;
  }

  // ---- Epochs ----

  /** The epoch after n more claims, starts and splices. */
  function EpochAfter(epoch: u32, n: nat): u32 {
    if n == 0 then epoch else NextEpoch(EpochAfter(epoch, n - 1))
  }

  /** Epochs run through every number but zero before one comes again. */
  lemma {:induction false} EpochIsCycle(epoch: u32, n: nat)
    requires epoch != 0
    ensures EpochAfter(epoch, n) as int == (epoch - 1 + n) % 0xFFFF_FFFF + 1
  {
    if n == 0 {
      assert (epoch - 1) % 0xFFFF_FFFF == epoch - 1;
    } else {
      EpochIsCycle(epoch, n - 1);
      var m: int := epoch - 1 + (n - 1);
      var q := m / 0xFFFF_FFFF;
      assert m == q * 0xFFFF_FFFF + m % 0xFFFF_FFFF;
      if m % 0xFFFF_FFFF == 0xFFFF_FFFE {
        assert m + 1 == (q + 1) * 0xFFFF_FFFF;
      } else {
        assert (m + 1) / 0xFFFF_FFFF == q;
      }
    }
  }

  /** So no epoch is used twice within 2^32 - 1 of them, and zero never is. */
  lemma EpochsAreFresh(epoch: u32, i: nat, j: nat)
    requires epoch != 0 && i < j < i + 0xFFFF_FFFF
    ensures EpochAfter(epoch, i) != EpochAfter(epoch, j) && EpochAfter(epoch, i) != 0
  {
    hide EpochAfter;
    EpochIsCycle(epoch, i);
    EpochIsCycle(epoch, j);
    NotCongruent(epoch - 1 + i, j - i);
  }

  lemma NotCongruent(x: nat, d: nat)
    requires 0 < d < 0xFFFF_FFFF
    ensures x % 0xFFFF_FFFF != (x + d) % 0xFFFF_FFFF
  {
  }

  lemma FirstEpoch()
    ensures NextEpoch(0) == 1
  {
  }

  /** Once there is an owner the epoch goes on by one or not at all, and only by a
      start or a splice. */
  lemma EpochMovesByOne(u: Setup, s: System, a: Action)
    requires s.host.owner.Some?
    ensures Perform(u, s, a).host.epoch in {s.host.epoch, NextEpoch(s.host.epoch)}
    ensures Perform(u, s, a).host.epoch != s.host.epoch ==> a.StartAction? || a.SpliceAction?
  {
    hide Perform, NextEpoch;
    ActionCarries(u, s, a);
  }

  // ---- Ends ----

  /** What an answer says of the state: a failure is a fault and disarms, a
      refusal has asked the MCU nothing, and nothing else is a fault. */
  ghost predicate Tells(h: Host, l: Ledger, after: Host, later: Ledger, answer: Answer) {
    && (answer == Failed ==> after.state == Faulted && !after.armed)
    && (after.state == Faulted && h.state != Faulted ==> answer == Failed)
    && (answer == Refused ==>
          && later == l && after.state == h.state && after.armed == h.armed
          && after.route == h.route && after.tail == h.tail && after.pending == h.pending && after.horizon == h.horizon)
  }

  lemma AppendTells(u: Setup, h: Host, l: Ledger, owner: string, points: seq<Point>, beat: Option<u32>, trip: Trip)
    ensures var r := HostAppend(u.cfg, u.limits, h, l, owner, points, beat, trip);
            Tells(h, l, r.0, r.1, r.2)
  {
    hide SendBatch, FutureRoute, PointsOk, HostTick, HostTickAfter, Distance, AppendRequest, Placed;
  }

  lemma SpliceTells(u: Setup, h: Host, l: Ledger, owner: string, points: seq<Point>, offset: int, beat: Option<u32>,
                    trip: Trip)
    ensures var r := HostSplice(u.cfg, u.limits, h, l, owner, points, offset, beat, trip);
            Tells(h, l, r.0, r.1, r.2)
  {
    hide SendBatch, FutureRoute, PointsOk, HostTick, HostTickAfter, Distance, InterpolateRoute, RetainedRoute,
         SpliceRequest, Placed;
  }

  lemma LaunchTells(cfg: Config, h: Host, l: Ledger, owner: string, points: seq<Point>, count: nat, finite: bool,
                    enabled: bool, beat: Option<u32>, opening: Trip, trip: Trip)
    requires count <= |points|
    ensures var r := HostLaunch(cfg, h, l, owner, points, count, finite, enabled, beat, opening, trip);
            Tells(h, l, r.0, r.1, r.2)
  {
    hide SendBatch, SendOpen, AppendRequest, PolicyRequest, Placed, NextEpoch;
  }

  lemma StartTells(u: Setup, h: Host, l: Ledger, owner: string, points: seq<Point>, finite: bool, anchor: Option<Vec>,
                   enabled: bool, beat: Option<u32>, opening: Trip, trip: Trip)
    ensures var r := HostStart(u.cfg, u.limits, u.authorized, h, l, owner, points, finite, anchor, enabled, beat,
                               opening, trip);
            Tells(h, l, r.0, r.1, r.2)
  {
    hide HostLaunch, FirstRoute;
    var h1 := if h.armed then h else h.(prepared := anchor);
    if h1.prepared.Some? {
      var count := FirstRoute(u.cfg, u.limits, points, finite, h1.prepared.value);
      if count.Some? {
        LaunchTells(u.cfg, h1, l, owner, points, count.value, finite, enabled, beat, opening, trip);
      }
    }
  }

  lemma PollTells(u: Setup, h: Host, l: Ledger, owner: string, beat: Option<u32>, trip: Trip, replies: PollReplies)
    ensures var r := HostPoll(u.cfg, h, l, owner, beat, trip, replies);
            Tells(h, l, r.0, r.1, r.2)
  {
    hide SendBatch, FutureRoute, HostTickAfter, Distance, AppendRequest, HostAdapter.Settled, ReadyCount, AllWell,
         MeasuredPose, Busy, NextEpoch;
  }

  lemma AnswersTell(u: Setup, s: System, a: Action)
    ensures Tells(s.host, s.ledger, Perform(u, s, a).host, Perform(u, s, a).ledger, AnswerOf(u, s, a))
  {
    hide HostAppend, HostSplice, HostStart, HostPoll, Book;
    match a
    case AppendAction(owner, points, beat, trip) => AppendTells(u, s.host, s.ledger, owner, points, beat, trip);
    case SpliceAction(owner, points, offset, beat, trip) =>
      SpliceTells(u, s.host, s.ledger, owner, points, offset, beat, trip);
    case StartAction(owner, points, finite, anchor, enabled, beat, opening, trip) =>
      StartTells(u, s.host, s.ledger, owner, points, finite, anchor, enabled, beat, opening, trip);
    case PollAction(owner, beat, trip, replies) => PollTells(u, s.host, s.ledger, owner, beat, trip, replies);
    case _ =>
  }

  predicate Ended(h: Host) {
    h.state == Stopped || h.state == Faulted
  }

  /** An adapter that has stopped or faulted stays so, and sends nothing more. */
  lemma EndIsFinal(u: Setup, s: System, a: Action)
    requires Ended(s.host)
    ensures Ended(Perform(u, s, a).host)
    ensures s.host.state == Stopped ==> Perform(u, s, a).host.state == Stopped
    ensures Perform(u, s, a).ledger == if a.McuAction? then Book(s.ledger, a.event) else s.ledger
  {
    hide Book, HostAppendAt, HostSpliceAt, HostPump, HostLaunch, FirstRoute, SpliceArgumentsOk;
  }

  /** What the MCU did on its own. */
  function OwnEvents(actions: seq<Action>): seq<Event> {
    if actions == [] then []
    else (if actions[0].McuAction? then [actions[0].event] else []) + OwnEvents(actions[1..])
  }

  lemma {:induction false} EndIsSilent(u: Setup, s: System, actions: seq<Action>)
    requires Ended(s.host)
    ensures Ended(PerformAll(u, s, actions).host)
    ensures PerformAll(u, s, actions).ledger == BookAll(s.ledger, OwnEvents(actions))
    decreases |actions|
  {
    hide Perform, Book, Ended;
    if actions != [] {
      EndIsFinal(u, s, actions[0]);
      EndIsSilent(u, Perform(u, s, actions[0]), actions[1..]);
      var own := if actions[0].McuAction? then [actions[0].event] else [];
      assert own == [] ==> OwnEvents(actions) == OwnEvents(actions[1..]);
      assert own != [] ==> OwnEvents(actions)[1..] == OwnEvents(actions[1..]);
    }
  }

  /** A stop by the owner ends the session exactly when the MCU confirms it. */
  lemma StopDecides(u: Setup, s: System, owner: string, latched: bool)
    requires Claims(s.host, owner)
    ensures var after, answer := Perform(u, s, StopAction(owner, latched)), AnswerOf(u, s, StopAction(owner, latched));
            && (s.host.state == Stopped ==> after == s && answer == Accepted)
            && (s.host.state != Stopped ==>
                  && after.host.state == (if latched then Stopped else Faulted) && !after.host.armed
                  && (latched ==> answer == Accepted && after.host.route == [] && after.host.pending == []
                                  && after.host.horizon == None)
                  && (!latched ==> answer == Failed))
  {
  }

  /** An adapter is prepared once. */
  lemma PrepareDecides(u: Setup, s: System, anchor: Option<Vec>)
    ensures var after, answer := Perform(u, s, PrepareAction(anchor)), AnswerOf(u, s, PrepareAction(anchor));
            && (s.host.state != New ==> after == s && answer == Refused)
            && (s.host.state == New ==>
                  if anchor.None? then after.host.state == Faulted && answer == Failed
                  else after.host.state == Ready && after.host.prepared == anchor && answer == Accepted)
  {
  }

  // ---- Health ----

  /** The firmware the host was released with, not stopped. */
  ghost predicate RightFirmware(hello: Option<Hello>) {
    && hello.Some? && hello.value.protocolVersion == 2 && hello.value.jointCount == 12
    && hello.value.firmwareVersion == 0x0002_4809 && hello.value.capabilities == 0xEFFF_FFFF
    && hello.value.leftHash == 0x2D90_167E && hello.value.rightHash == 0x2D90_167E && !hello.value.stopLatched
  }

  ghost predicate Beating(reply: Option<StateReply>) {
    reply.Some? && reply.value.statusCode == 0 && !reply.value.stopLatched
  }

  /** A whole pose of both arms, inside the limits. */
  ghost predicate WholePose(limits: Limits, shadow: Option<Shadow>, pose: Vec) {
    && shadow.Some? && shadow.value.statusCode == 0 && shadow.value.jointCount == 12
    && shadow.value.leftPresent == 63 && shadow.value.rightPresent == 63
    && |shadow.value.raw| == 12 && |shadow.value.unwrapped| == 12 && shadow.value.anchor == pose
    && forall j :: 0 <= j < JOINT_COUNT ==> limits[j].minimum <= pose[j] <= limits[j].maximum
  }

  /** The adapter is prepared at a pose exactly when the right firmware answers,
      its heart beats, nothing is on its way to the servos or being checked, and
      that pose of both arms was captured whole and inside the limits. */
  lemma PreparedWhen(limits: Limits, p: Preflight, pose: Vec)
    ensures PreparedAnchor(limits, p) == Some(pose) <==>
              && RightFirmware(p.hello) && Beating(p.state) && WholePose(limits, p.shadow, pose)
              && p.dispatch.Some? && p.dispatch.value.statusCode == 0 && !p.dispatch.value.active
              && !p.dispatch.value.faulted && p.dispatch.value.ready
              && p.tracking.Some? && p.tracking.value.statusCode == 0 && !p.tracking.value.active
              && !p.tracking.value.pending
  {
  }

  /** The pose is read again, and the torque is on, exactly on such replies. */
  lemma LaunchedWhen(limits: Limits, r: Launching, pose: Vec)
    ensures RefreshedAnchor(limits, r) == Some(pose) <==> Beating(r.refresh) && WholePose(limits, r.shadow, pose)
    ensures TorqueOn(r) <==> r.armed && Beating(r.postArm) && Beating(r.enabled)
    ensures forall beat: u32 ::
              BeatOf(r.beat) == Some(beat) <==> (Beating(r.beat) && r.beat.value.lastHeartbeatMs == beat)
  {
  }
}
