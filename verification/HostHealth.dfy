/** The replies on which the adapter bases its safety checks, and what it makes
    of them. A reply that does not come, because the transport raises, is
    `None`. */
module HostHealth {
  import opened Words
  import opened StreamContract
  import opened StreamSession
  import opened StreamExecutor

  const PROTOCOL_VERSION := 2
  const FIRMWARE_VERSION := 0x0002_4809
  const CAPABILITIES := 0xEFFF_FFFF
  const CALIBRATION_HASH := 0x2D90_167E
  const ARM_PRESENT := 0x3F
  const BOTH_PRESENT := 0x0FFF

  // ---- Replies ----

  datatype Hello = Hello(
    protocolVersion: int, jointCount: int, stopLatched: bool, firmwareVersion: int, leftHash: int, rightHash: int,
    capabilities: int)

  datatype StateReply = StateReply(stopLatched: bool, statusCode: int, lastHeartbeatMs: u32)

  datatype DispatchReply = DispatchReply(statusCode: int, active: bool, faulted: bool, ready: bool, failureCount: int)

  datatype TrackingReply = TrackingReply(statusCode: int, active: bool, pending: bool)

  datatype Shadow = Shadow(
    statusCode: int, jointCount: int, leftPresent: int, rightPresent: int, raw: seq<int>, unwrapped: seq<int>,
    anchor: seq<i32>)

  datatype Feedback = Feedback(
    statusCode: int, jointCount: int, present: int, positions: seq<i32>, ages: seq<int>)

  // ---- Single replies ----

  predicate Healthy(reply: Option<StateReply>) {
    reply.Some? && !reply.value.stopLatched && reply.value.statusCode == 0
  }

  /** The tick of a healthy heartbeat. */
  function BeatOf(reply: Option<StateReply>): Option<u32> {
    if Healthy(reply) then Some(reply.value.lastHeartbeatMs) else None
  }

  predicate IdentityOk(hello: Option<Hello>) {
    && hello.Some? && hello.value.protocolVersion == PROTOCOL_VERSION && hello.value.jointCount == JOINT_COUNT
    && hello.value.firmwareVersion == FIRMWARE_VERSION && hello.value.leftHash == CALIBRATION_HASH
    && hello.value.rightHash == CALIBRATION_HASH && hello.value.capabilities == CAPABILITIES
    && !hello.value.stopLatched
  }

  predicate DispatchReady(dispatch: Option<DispatchReply>) {
    && dispatch.Some? && dispatch.value.statusCode == 0 && !dispatch.value.active && !dispatch.value.faulted
    && dispatch.value.ready
  }

  predicate TrackingIdle(tracking: Option<TrackingReply>) {
    tracking.Some? && tracking.value.statusCode == 0 && !tracking.value.active && !tracking.value.pending
  }

  predicate ShadowComplete(shadow: Option<Shadow>) {
    && shadow.Some? && shadow.value.statusCode == 0 && shadow.value.jointCount == JOINT_COUNT
    && shadow.value.leftPresent == ARM_PRESENT && shadow.value.rightPresent == ARM_PRESENT
    && |shadow.value.raw| == JOINT_COUNT && |shadow.value.unwrapped| == JOINT_COUNT
    && |shadow.value.anchor| == JOINT_COUNT
  }

  /** The captured pose, if it is complete and inside the operational limits. */
  function AnchorOf(limits: Limits, shadow: Option<Shadow>): (anchor: Option<Vec>)
    ensures anchor.Some? ==> WithinLimits(limits, anchor.value)
  {
    if ShadowComplete(shadow) && WithinLimits(limits, shadow.value.anchor) then Some(shadow.value.anchor) else None
  }

  predicate FeedbackComplete(feedback: Option<Feedback>) {
    && feedback.Some? && feedback.value.statusCode == 0 && feedback.value.jointCount == JOINT_COUNT
    && feedback.value.present == BOTH_PRESENT && |feedback.value.positions| == JOINT_COUNT
    && |feedback.value.ages| == JOINT_COUNT
  }

  /** The anchor check, joint by joint. */
  method AnchorLoop(limits: Limits, shadow: Option<Shadow>) returns (anchor: Option<Vec>)
    ensures anchor == AnchorOf(limits, shadow)
  {
    if !ShadowComplete(shadow) { return None; }
    var pose := shadow.value.anchor;
    for j := 0 to JOINT_COUNT
      invariant forall i :: 0 <= i < j ==> limits[i].minimum <= pose[i] <= limits[i].maximum
    {
      if !(limits[j].minimum <= pose[j] <= limits[j].maximum) { return None; }
    }
    anchor := Some(pose);
  }

  predicate FreshEnough(ages: seq<int>, limit: int) {
    forall i :: 0 <= i < |ages| ==> ages[i] <= limit
  }

  /** The largest of the joints' ages decides. */
  method OldestAge(ages: seq<int>) returns (oldest: int)
    requires |ages| > 0
    ensures oldest in ages && forall i :: 0 <= i < |ages| ==> ages[i] <= oldest
  {
    oldest := ages[0];
    for i := 1 to |ages|
      invariant oldest in ages && forall k :: 0 <= k < i ==> ages[k] <= oldest
    {
      if ages[i] > oldest { oldest := ages[i]; }
    }
  }

  // ---- Prepare ----

  /** Everything `prepare` asks. */
  datatype Preflight = Preflight(
    hello: Option<Hello>, state: Option<StateReply>, dispatch: Option<DispatchReply>,
    tracking: Option<TrackingReply>, shadow: Option<Shadow>)

  function PreparedAnchor(limits: Limits, p: Preflight): (anchor: Option<Vec>)
    ensures anchor.Some? ==> WithinLimits(limits, anchor.value)
  {
    if IdentityOk(p.hello) && Healthy(p.state) && DispatchReady(p.dispatch) && TrackingIdle(p.tracking)
    then AnchorOf(limits, p.shadow) else None
  }

  // ---- Start ----

  /** What `start` asks: the pose again, before the first arming, then arm,
      heartbeat, enable, and the heartbeat it plans from. */
  datatype Launching = Launching(
    refresh: Option<StateReply>, shadow: Option<Shadow>, armed: bool, postArm: Option<StateReply>,
    enabled: Option<StateReply>, beat: Option<StateReply>)

  function RefreshedAnchor(limits: Limits, r: Launching): (anchor: Option<Vec>)
    ensures anchor.Some? ==> WithinLimits(limits, anchor.value)
  {
    if Healthy(r.refresh) then AnchorOf(limits, r.shadow) else None
  }

  predicate TorqueOn(r: Launching) {
    r.armed && Healthy(r.postArm) && Healthy(r.enabled)
  }

  // ---- Poll ----

  /** What `poll` asks after the feeder: three heartbeats, the executor's state,
      a feedback vector once that is SUCCEEDED, and the two services. */
  datatype PollReplies = PollReplies(
    before: Option<StateReply>, executorRead: bool, feedback: Option<Feedback>, between: Option<StateReply>,
    dispatch: Option<DispatchReply>, tracking: Option<TrackingReply>, after: Option<StateReply>)

  /** Every question was answered, and no answer is a fault. */
  predicate AllWell(r: PollReplies, succeeded: bool) {
    && Healthy(r.before) && r.executorRead && (succeeded ==> FeedbackComplete(r.feedback)) && Healthy(r.between)
    && r.dispatch.Some? && r.tracking.Some? && Healthy(r.after)
    && !r.dispatch.value.faulted && r.dispatch.value.failureCount == 0
    && (r.dispatch.value.active || r.dispatch.value.ready)
  }

  /** The last vector is still on its way to the servos or being checked. */
  predicate Busy(r: PollReplies)
    requires r.dispatch.Some? && r.tracking.Some?
  {
    r.dispatch.value.active || r.tracking.value.active || r.tracking.value.pending
  }

  /** The measured pose a finite plan is judged by, if it is fresh. */
  function MeasuredPose(r: PollReplies, maximumAge: int): Option<Vec>
    requires FeedbackComplete(r.feedback)
  {
    if FreshEnough(r.feedback.value.ages, maximumAge) then Some(r.feedback.value.positions) else None
  }

  /** The questions of a poll, in the order in which they are asked and judged. */
  method AskAll(r: PollReplies, succeeded: bool) returns (ok: bool)
    ensures ok == AllWell(r, succeeded)
  {
    if !Healthy(r.before) || !r.executorRead { return false; }
    if succeeded && !FeedbackComplete(r.feedback) { return false; }
    if !Healthy(r.between) || r.dispatch.None? || r.tracking.None? || !Healthy(r.after) { return false; }
    var dispatch := r.dispatch.value;
    ok := !dispatch.faulted && dispatch.failureCount == 0 && (dispatch.active || dispatch.ready);
  }

  /** The pose is fresh exactly when its oldest joint is. */
  method FreshPose(r: PollReplies, maximumAge: int) returns (pose: Option<Vec>)
    requires FeedbackComplete(r.feedback)
    ensures pose == MeasuredPose(r, maximumAge)
  {
    var feedback := r.feedback.value;
    var oldest := OldestAge(feedback.ages);
    pose := if oldest > maximumAge then None else Some(feedback.positions);
  }
}
