# Verified model of the SO-101 bimanual motion stack

This project models, in Dafny, how a planned motion travels from the host to
the servos of a twelve-axis bimanual arm, and proves what the layers promise
one another. `dafny verify dfyconfig.toml` checks the whole project.

## The system

**The motion stream.** A host adapter validates routes, aligns them to a 5 ms
grid, feeds long finite plans in batches of at most nine samples and
synthesises splice points. The firmware decodes and admits APPEND and SPLICE
batches into a queue of sixteen samples. The resident executor anchors the
queue, interpolates in truncating integer arithmetic, applies each sample at
the first control tick at or after its own tick, and ends in SUCCEEDED, HOLD or
ABORTED. The goal map turns micro-radians into modulo-4096 servo counts. All
layers share one wrapping 32-bit millisecond clock.

**Beside it.** Multi-turn unwrapping and angle conversion; the older buffered
executor over a ring queue, with its command route and lateness statistics; the
byte protocols: COBS (Cheshire and Baker, "Consistent Overhead Byte Stuffing",
IEEE/ACM Transactions on Networking, 1999), CRC-32C (section 12.1 of RFC 3720),
the frame codec, the resynchronising stream parser, the servo reply parser and
its window over a DMA ring.

## How the model is laid out

State that the source updates in place is a class with the source's fields;
each method's contract gives the whole new state as a function of the old one.
Those functions live in a module of their own, and every theorem about whole
runs is proved about them. What the functions themselves decide is stated a
second time without them: on the bytes of a request, on the history of a run
(`Story`, `Tally`, `Tale`), or on the plan. Code that is made of expressions stays functions.

| files | what they hold |
|---|---|
| `Words`, `Interpolation` | 32-bit words, the wrapping clock, truncating interpolation |
| `StreamContract`, `StreamSession`, `Timeline` | decoding, policy and batch checks, the queue and its interpolator |
| `StreamExecutor`, `StreamExecutorObject` | the resident executor as functions and as the object that refines them |
| `AdmissionLaws`, `ExecutorStory`, `ExecutorLaws`, `ExecutorReports` | what the executor answers, from the wire bytes and the history alone |
| `ExecutorRuns`, `PlanRefinement`, `SegmentSlew`, `GridSplice`, `SlewBound`, `DrainedAppend`, `StreamCompletion`, `SpliceContinuity` | limit safety, plan refinement, slew bound and completion over whole runs, splice continuity |
| `WireCodec`, `HostHealth`, `HostAdapter`, `HostAdapterObject` | the host's encoders, its safety checks and its adapter |
| `HostSimulation`, `HostRuns`, `HostGuarantees`, `HostAdmission`, `StartAdmission`, `Feeder`, `FeederProgress`, `HostPacing`, `PlanCompletion`, `TendedPlan`, `PollRelease`, `HostLaws`, `HostPlacement`, `HostWitnesses` | host and firmware as one system |
| `GoalMap`, `OperationalLimits`, `JointUnwrap` | counts, limits and turns |
| `SetpointQueue`, `BufferedExecutor`, `BufferedRuns`, `BufferedPlan`, `BufferedStory`, `BufferedSlew`, `BufferedAccounting`, `BufferedRoute` and their objects | the older executor |
| `Cobs`, `Crc32c`, `FrameCodec`, `ServoResponse`, `ServoWindow` | byte protocols |

## Conditions that appear in the statements

- Ticks are compared in both languages by the sign of a 32-bit difference.
  Statements about order over time name an origin `o` or `base` and ask that
  ticks lie less than 2^31 ms past it and that the clock does not go back
  (`Timely`, `Prompt`, `Paced`). `OrderIsNotTransitive` shows why.
- The firmware's batch decoder compares only neighbours. `WireOrdered` is what
  the host's encoder adds, and `BatchWire` proves that it does.
- A paced run is stepped every 5 ms from its start, and may be refused anything
  at any time. A splice it admits starts on the queue's line and grid, as every
  splice of the host does (`HostSplicesContinue`). An append into a drained queue
  arrives after the last step and starts an allowed step from the anchor
  (`Resuming`); the host's own validation makes sure of the latter, since the
  anchor is then the tail of its route (`DrainedAppendStep`).
- A plan is fed in time (`OftenEnough`) when the poll period and the delay of a
  request together fit between the minimum lead and the slack that a turn of the
  feeder leaves: 81 ms, nine control ticks above the minimum lead, or one more
  than the maximum lead, whichever is least. When the gap between points fits in
  as well (`KeepsAhead`) the MCU never runs dry. A poll also has to meet an MCU
  that has applied what was due at its heartbeat (`AppliedDue`, `CaughtUp`).
- The buffered executor's slew bound asks that the plan moves by at most k in the
  step period plus the allowed lateness (`Gentle`).
- A vector is dispatched when a step returns an output, or ends the stream in
  SUCCEEDED; the output written on a command timeout is not.
- A request to the firmware arrives at some tick or not at all, after whatever
  the firmware did on its own, and its answer comes back or not (`Trip`).

## What turned out not to hold as promised

- The slew bound, when an append arrives after the queue has drained. The
  executor has held its anchor since the anchor's tick and takes up the new
  segment where the clock says it should be, so the first output covers at once
  the share of the segment that has already gone by. `AppendJumps` is such a
  run from reset, with every request accepted and an allowed step from anchor
  to sample: the output moves by three step limits. `RunsAreSlewed` holds
  exactly when that share (`ResumeClose`: its product and quotient from the
  anchor, the first sample and the next step's tick) is within the bound at
  every such append that is followed by an output.
- A host append to a finite stream can pass every check of the host and still
  be refused, and fault the host, because it passes the horizon
  (`FiniteAppendIsRefused`); `AppendsAreAccepted` carries that condition.
- The feeder's conservation, when a user appends to a plan that is still being
  fed: the samples go in before those pending (`AppendBreaksPlan`). `FeedKeeps`
  says that only an append that passes, or a splice that does, breaks it, and
  `HostAppendsAreAccepted` and `HostSplicesAreAccepted` say exactly when one
  passes. No append does once everything of a plan with a horizon has been sent
  (`FedPlanTakesNoAppend`).
- A finite plan whose last tick is exactly zero is accepted, opens a stream
  without a horizon and never succeeds (`TickZeroPlanNeverSucceeds`);
  `HostPlanCompletes` makes it the only exception.
- The host and the firmware do not always agree on whether a splice tick can
  be interpolated. A heartbeat at or after a sample's tick makes the host drop
  it, while the firmware keeps it until its control tick, up to 4 ms later. A
  splice into the segment after that sample, with every lead it needs, faults
  the host although the firmware, sent that splice, would admit it
  (`McuAnswersAlone`). `InterpolatorsAgree` gives the exact condition; wherever
  both answer they agree.
- A splice whose tick is exactly zero cannot be sent: zero means "no splice" on
  the wire. The host's checks pass and the host faults (`ZeroSpliceFails`);
  `SplicesAreAccepted` carries that condition, and `SpliceNeedsTick` shows that
  nothing else stands in the way.
- Three exits of the buffered executor's step are never taken in a running
  executor: empty queue, queue rejected and elapsed beyond segment
  (`StepExits`).
- The error of micro-radians to counts and back is 767 micro-radians at worst,
  and that is reached (`AngleBoundIsTight`).

## Model

| member | source | states |
|---|---|---|
| Words.TickOrdersAgree | ros2_ws/src/so101_arm_bridge/so101_arm_bridge/stream_protocol_v2.py:331-333 | the host's masked tick comparison and the firmware's signed one order every pair of 32-bit ticks alike |
| Words.HalfWindow | firmware/stm32_actuator/src/stream_contract_v2.c:17-19 | inside any half-window of the wrapping clock, tick order is the order of distances from the base, and subtraction is exact |
| Words.OrderIsNotTransitive | firmware/stm32_actuator/src/stream_contract_v2.c:180-183 | outside a half-window neighbour order says nothing: three ticks can each follow the next one round the clock |
| Interpolation.LerpExact | firmware/stm32_actuator/src/stream_session_v2.c:61-65 | the firmware's 64-bit formula with its two 32-bit casts is exact truncating interpolation and stays between its ends, for all int32 ends |
| Interpolation.LerpDefined | firmware/stm32_actuator/src/stream_session_v2.c:61-65 | when the ends are less than 2^31 apart every intermediate value of that formula fits the C type it is computed in |
| Interpolation.LerpSlew | firmware/stm32_actuator/src/stream_executor_v2.c:400-406 | two points of one segment differ by no more than the exact line does, in spite of truncation |
| Interpolation.SpliceSegment | firmware/stm32_actuator/src/stream_session_v2.c:61-65 | a segment cut short at a point within m of the old line stays within m + 1 of it before the cut |
| Interpolation.TruncDivCross | firmware/stm32_actuator/src/stream_session_v2.c:65 | truncated quotients of two fractions at most k apart are at most k apart, whatever the denominators and signs |
| StreamContract.DecodeBatchLoop | firmware/stm32_actuator/src/stream_contract_v2.c:128-192 | decodes a batch, or gives the first error, exactly as the decoding function that BatchWire characterises |
| StreamContract.DecodeSamplesLoop | firmware/stm32_actuator/src/stream_contract_v2.c:171-190 | the sample loop accepts exactly zero first offset and increasing neighbours |
| StreamContract.ValidatePolicyLoop | firmware/stm32_actuator/src/stream_contract_v2.c:68-126 | the verdict of the policy checks, first failing joint included |
| StreamContract.JointPolicyVerdicts | firmware/stm32_actuator/src/stream_contract_v2.c:110-125 | accepts exactly when every joint's limits are positive and no looser than the caps |
| StreamContract.StepsAllowedLoop | firmware/stm32_actuator/src/stream_contract_v2.c:241-262 | exactly when all neighbours are a positive whole number of control ticks apart and within the step limit on every joint |
| StreamContract.WithinOneStepLoop | firmware/stm32_actuator/src/stream_contract_v2.c:293-300 | exactly when the splice point is within one step of the interpolated one on every joint |
| StreamContract.ValidateTransitionLoop | firmware/stm32_actuator/src/stream_contract_v2.c:194-302 | the verdict of every check of a batch against the session, in the firmware's order; what each verdict means on the bytes is AdmissionLaws.ReasonsAreTrue, and when there is none AppendDecides and SpliceDecides |
| AdmissionLaws.DecodesWhatIsSpelled | firmware/stm32_actuator/src/stream_contract_v2.c:128-192 | the decoder takes exactly the payloads of the right length, mask, count and neighbours whose splice tick is zero exactly for an append, and reads from each the words it spells |
| AdmissionLaws.ReasonsAreTrue | firmware/stm32_actuator/src/stream_contract_v2.c:194-302 | whatever an open session answers to a batch, the reason it gives is true of the bytes: that field, lead, horizon, epoch, step or splice is wrong, there is no room, or there is no position to splice at |
| StreamSession.SessionObject.InterpolatePosition | firmware/stm32_actuator/src/stream_session_v2.c:35-72 | the array scan returns the queue read as a trajectory |
| Timeline.InterpolateAnswers | firmware/stm32_actuator/src/stream_session_v2.c:35-72 | on an ordered queue the interpolator answers exactly from the first sample to the last |
| Timeline.ScanFinds | firmware/stm32_actuator/src/stream_session_v2.c:35-72 | and what it answers is the sample at the tick, or the point of the one segment around it |
| Timeline.RetainedExact | firmware/stm32_actuator/src/stream_session_v2.c:185-191 | on an ordered queue a cut keeps exactly the samples before its tick |
| StreamSession.SessionObject.Open | firmware/stm32_actuator/src/stream_session_v2.c:80-116 | open replaces the whole session, or leaves it as it was |
| StreamSession.SessionObject.Batch | firmware/stm32_actuator/src/stream_session_v2.c:118-215 | the whole new session after a batch; a refused batch changes nothing; which batches pass, and under which epoch, is AdmissionLaws.AppendDecides and ExecutorLaws.SessionAppendHasEpoch |
| StreamSession.SessionObject.Admit | firmware/stm32_actuator/src/stream_session_v2.c:154-215 | overwrites the buffer from the cut on: the new queue is the kept samples followed by the batch |
| StreamSession.SessionObject.RemoveFirst | firmware/stm32_actuator/src/stream_executor_v2.c:78-92 | moving the buffer down one place drops exactly the first sample |
| AdmissionLaws.InterpolateIsTrajectory | firmware/stm32_actuator/src/stream_session_v2.c:35-72 | the interpolator's answer is the queue read as a piecewise line on plain integers, an independent definition |
| SpliceContinuity.SpliceIsContinuous | firmware/stm32_actuator/src/stream_session_v2.c:160-210 | an accepted splice at T keeps every sample before T and moves the trajectory, at every tick from the first queued sample to T, by at most one more than its jump at T |
| SpliceContinuity.SpliceBound | firmware/stm32_actuator/src/stream_contract_v2.c:293-300 | so by at most the step limit plus one, and by at most one when the splice point is the interpolated position |
| StreamExecutorObject.ExecutorObject.Open | firmware/stm32_actuator/src/stream_executor_v2.c:121-156 | the whole new state of open; refused while running |
| StreamExecutorObject.ExecutorObject.Admit | firmware/stm32_actuator/src/stream_executor_v2.c:158-239 | the whole new state of an admission: decode, limits, cross-batch step, session, counters |
| StreamExecutorObject.ExecutorObject.Start | firmware/stm32_actuator/src/stream_executor_v2.c:241-290 | the whole new state of start: priming count, anchor inside limits and before the queue, reachable in steps |
| StreamExecutorObject.ExecutorObject.Step | firmware/stm32_actuator/src/stream_executor_v2.c:292-409 | the whole new state, result and output of a step, including the timeout that writes an output without dispatching it; ExecutorStory.NextStep says what that is from the history alone |
| StreamExecutorObject.ExecutorObject.Apply | firmware/stm32_actuator/src/stream_executor_v2.c:354-388 | the branch that applies the due sample, or aborts if it is too late, and succeeds at the horizon |
| StreamExecutorObject.ExecutorObject.ConsumeFirst | firmware/stm32_actuator/src/stream_executor_v2.c:78-92 | drops the first sample and keeps the queue depth statistics |
| StreamExecutorObject.ExecutorObject.InterpolateStep | firmware/stm32_actuator/src/stream_executor_v2.c:390-408 | the branch before the first sample is due |
| StreamExecutorObject.ExecutorObject.CheckJointFeedback | firmware/stm32_actuator/src/stream_executor_v2.c:411-444 | the whole new state of a tracking check |
| AdmissionLaws.OpenDecides | firmware/stm32_actuator/src/stream_executor_v2.c:121-156 | an open is accepted exactly when no stream runs and each field of its bytes meets its bound and cap; the stream then waits, empty, for an epoch |
| AdmissionLaws.OpenReasons | firmware/stm32_actuator/src/stream_contract_v2.c:31-126 | and a refused open is refused for a reason true of its bytes |
| AdmissionLaws.AppendDecides | firmware/stm32_actuator/src/stream_executor_v2.c:158-239 | an append is admitted exactly when, on the bytes: length, mask, count, order, horizon and limits are right, it has both leads, its epoch is the established one if any, its first sample is after the tail and within a step of it, and there is room |
| AdmissionLaws.SpliceDecides | firmware/stm32_actuator/src/stream_executor_v2.c:158-239 | a splice is admitted exactly when, on the bytes: length, mask, count, order, horizon and limits are right, its tick is that of its first sample, with the agreed lead and at least 20 ms ahead, the queue's trajectory has a position at that tick within a step of it, and there is room after the cut |
| AdmissionLaws.AdmitAnswers | firmware/stm32_actuator/src/stream_executor_v2.c:158-239 | each refusal, exactly when it is given or, for the contract, with a reason that is true |
| ExecutorStory.RunsFollowFromReset | firmware/stm32_actuator/src/stream_executor_v2.c:94-444 | over every timely run from reset the executor follows the story told from the events and their answers alone: the bytes of the last open, the last accepted epoch, the tick of the last accepted batch, the start, the last step |
| ExecutorStory.NextStep | firmware/stm32_actuator/src/stream_executor_v2.c:292-409 | in every timely run, from that story, the plan and what was applied, the next step of a running executor: command timeout, drained queue, sample due, too late, end of plan, point of the line, each with result, state, reason, output and safe stop |
| ExecutorLaws.CommandTimeoutIsExact | firmware/stm32_actuator/src/stream_executor_v2.c:322-334 | in every timely run from reset of a stream without horizon, the next step of a running executor ends in HOLD with a safe stop and nothing dispatched exactly when the last batch accepted since the open is longer ago than the timeout the open's bytes agreed |
| ExecutorLaws.HoldIsTimeout | firmware/stm32_actuator/src/stream_executor_v2.c:292-409 | and nothing else ever puts an executor on HOLD |
| ExecutorLaws.SessionAppendHasEpoch | firmware/stm32_actuator/src/stream_contract_v2.c:268-270 | in an established session an append passes only if its bytes carry the session's epoch, which it leaves as it was |
| ExecutorLaws.AppendHasEpoch | firmware/stm32_actuator/src/stream_contract_v2.c:268-270 | the same through the executor |
| ExecutorLaws.EpochIsGuarded | firmware/stm32_actuator/src/stream_session_v2.c:183-205 | whatever happens, an established epoch changes only through an accepted splice or open |
| ExecutorLaws.EpochLasts | firmware/stm32_actuator/src/stream_session_v2.c:118-215 | so in any run without one of those every admitted append carries that epoch: a stale owner's append never enters the queue |
| ExecutorLaws.StartDecides | firmware/stm32_actuator/src/stream_executor_v2.c:241-290 | in every timely run, a start answers by the story: opened and not started, at least as many samples as the open's bytes ask, an anchor inside limits, before the first sample and within reach of it |
| ExecutorReports.RunsReport | firmware/stm32_actuator/src/stream_executor_v2.c:38-92 | over every timely run the diagnostics are the true ones: accepted, applied, spliced, outputs, worst lateness against each sample's control tick, worst tracking error per joint, queue depth and its peak, last output |
| ExecutorReports.FeedbackDecides | firmware/stm32_actuator/src/stream_executor_v2.c:411-444 | a tracking check counts once something was written to a running or succeeded stream, and aborts exactly when the distance exceeds the limit for that joint in the open's bytes |
| ExecutorRuns.RunsAreSound | firmware/stm32_actuator/src/stream_executor_v2.c:158-409 | in every run, for any tick arguments, everything dispatched is inside the executor limits, the queue holds at most sixteen samples, a safe stop is required exactly in HOLD and ABORTED |
| ExecutorRuns.HandleKeeps | firmware/stm32_actuator/src/stream_executor_v2.c:158-444 | each operation keeps that invariant |
| ExecutorRuns.RefusalChangesNoPlan | firmware/stm32_actuator/src/stream_executor_v2.c:121-239 | a refused open or batch leaves queue, epoch, horizon and policy as they were |
| ExecutorRuns.AdmittedShape | firmware/stm32_actuator/src/stream_executor_v2.c:221-238 | an admitted batch changes exactly the queue from the cut on, epoch, horizon and counters |
| PlanRefinement.RunsRefine | firmware/stm32_actuator/src/stream_session_v2.c:118-215 | over every timely run, what was applied followed by the queue is the abstract plan in which an append extends and a splice cuts at its tick and extends; plan ticks strictly increase, nothing is applied before its tick, and a running executor interpolates from the sample it applied last |
| PlanRefinement.RunsRefineFromReset | firmware/stm32_actuator/src/stream_executor_v2.c:94-409 | the same from a reset executor, with nothing assumed of its state |
| PlanRefinement.BookRefines | firmware/stm32_actuator/src/stream_executor_v2.c:158-409 | each event keeps that refinement |
| PlanRefinement.ControlTickOf | firmware/stm32_actuator/src/stream_executor_v2.c:13-22 | the control tick of a sample is on the grid, at or after it, less than one period later |
| PlanRefinement.PlanCut | firmware/stm32_actuator/src/stream_session_v2.c:183-205 | filtering the plan by the splice tick keeps exactly what was applied and what the session keeps |
| PlanRefinement.AppliedIsDispatched | firmware/stm32_actuator/src/stream_executor_v2.c:356-387 | a step that takes a sample off the queue dispatches exactly that sample |
| SlewBound.RunsAreSlewed | firmware/stm32_actuator/src/stream_executor_v2.c:292-409 | over runs stepped every 5 ms with appends and host-built splices, consecutive dispatched outputs differ per joint by at most two steps (one if the segment starts on the grid) exactly when every append into a drained queue that is followed by an output can be resumed on that closely |
| SlewBound.StartedRunsAreSlewed | firmware/stm32_actuator/src/stream_executor_v2.c:94-409 | the same from reset: opened and primed by any timely events that leave no splice in the queue, started at E, stepped at E, E + 5, E + 10, and so on; one step when the first queued tick is congruent to E |
| SlewBound.AppendKeepsSteps | firmware/stm32_actuator/src/stream_executor_v2.c:189-202 | appends keep the whole queue within the step limit, across batches |
| GridSplice.SpliceJoins | firmware/stm32_actuator/src/stream_session_v2.c:160-210 | a splice that starts on the queue's line and grid keeps the whole queue within the step limit, and its first sample |
| GridSplice.PointJoins | firmware/stm32_actuator/src/stream_session_v2.c:35-72 | a truncated point of the trajectory on the queue's grid is an allowed step from the sample kept before it, or is the first sample itself |
| HostAdmission.HostSplicesContinue | ros2_ws/src/so101_arm_bridge/so101_arm_bridge/bimanual_stream_adapter.py:992-1038 | every accepted splice of the host is one of those: on the MCU's line as it arrives, and on its grid |
| SlewBound.ResumeDecides | firmware/stm32_actuator/src/stream_executor_v2.c:400-406 | on a segment from tick a to r0 the first output of step k stays within c steps of the anchor exactly when the share of the way that has gone by does, on every joint |
| SlewBound.DrainedAppendDecides | firmware/stm32_actuator/src/stream_executor_v2.c:189-202 | an append into a drained queue, an allowed step from the anchor held until then: the next output is within c steps of the held one exactly when that share is |
| SlewBound.FirstOutputIs | firmware/stm32_actuator/src/stream_executor_v2.c:390-408 | with something queued, whatever is appended, refused or fed back, the next vector dispatched is the point of the present segment at the next step |
| SlewBound.RunsKeepSteps | firmware/stm32_actuator/src/stream_executor_v2.c:121-388 | over every run, a queue into which nothing was spliced since its stream was opened is within the step limit, sample to sample |
| DrainedAppend.AppendJumps | firmware/stm32_actuator/src/stream_executor_v2.c:189-202 | a run from reset under default limits in which every request is accepted, the queue drains, an append arrives an allowed step from the anchor, and the next output is three step limits from the one before it |
| SlewBound.StartIsOnTime | firmware/stm32_actuator/src/stream_executor_v2.c:94-290 | a start after a reset and any timely priming without a splice in the queue establishes the invariant the bound runs on |
| StreamCompletion.FiniteStreamCompletes | firmware/stm32_actuator/src/stream_executor_v2.c:292-409 | stepped every 5 ms without faults, a finite stream is running with an output at every step before the first control tick at or after its horizon, and SUCCEEDED at that tick with the last sample as output |
| StreamCompletion.FedStreamCompletes | firmware/stm32_actuator/src/stream_executor_v2.c:94-409 | the same from reset: primed by any timely events without a splice in the queue, started at E, paced until the horizon's sample is queued, then undisturbed |
| StreamCompletion.SuccessNeedsHorizon | firmware/stm32_actuator/src/stream_executor_v2.c:376-386 | conversely SUCCEEDED is only entered by applying the one remaining sample at the horizon tick |
| StreamCompletion.SuccessLasts | firmware/stm32_actuator/src/stream_executor_v2.c:292-312 | after success nothing more is dispatched |
| WireCodec.BatchWire | ros2_ws/src/so101_arm_bridge/so101_arm_bridge/stream_protocol_v2.py:450-494 | the host encodes a batch as these bytes exactly when the firmware decodes these bytes as that batch and no sample lies 2^31 ms past the first |
| WireCodec.EncodeBatchLoop | ros2_ws/src/so101_arm_bridge/so101_arm_bridge/stream_protocol_v2.py:450-494 | the encoder's loop and its refusals |
| WireCodec.OpenWire | ros2_ws/src/so101_arm_bridge/so101_arm_bridge/stream_protocol_v2.py:401-429 | the host's open request is exactly what the firmware decodes as that policy |
| WireCodec.EncodesWhenOrdered | ros2_ws/src/so101_arm_bridge/so101_arm_bridge/stream_protocol_v2.py:462-479 | the encoder accepts exactly increasing neighbours inside one half-window, which is the precondition of plan refinement |
| WireCodec.PolicyValidatorsAgree | ros2_ws/src/so101_arm_bridge/so101_arm_bridge/stream_protocol_v2.py:342-398 | the host's policy validator and the firmware's accept the same policies |
| HostAdapterObject.Adapter.Start | ros2_ws/src/so101_arm_bridge/so101_arm_bridge/bimanual_stream_adapter.py:785-893 | the whole new state of start, from the replies to the second anchor capture, arm, heartbeat, enable and the heartbeat it plans from |
| HostAdapterObject.Adapter.Open | ros2_ws/src/so101_arm_bridge/so101_arm_bridge/bimanual_stream_adapter.py:849-893 | opens the stream under the plan's horizon and admits the first samples; the rest is pending |
| HostAdapterObject.Adapter.Append | ros2_ws/src/so101_arm_bridge/so101_arm_bridge/bimanual_stream_adapter.py:895-956 | the whole new state of append: grid shift, validation against the tail, request, route |
| HostAdapterObject.Adapter.Splice | ros2_ws/src/so101_arm_bridge/so101_arm_bridge/bimanual_stream_adapter.py:958-1048 | the whole new state of splice: grid shift, synthesised point, new epoch, request, route |
| HostAdapterObject.Adapter.Pump | ros2_ws/src/so101_arm_bridge/so101_arm_bridge/bimanual_stream_adapter.py:664-704 | the whole new state of one turn of the feeder, which FeederProgress.TurnSendsAllItMay shows to send all that may go |
| HostAdapterObject.Adapter.Poll | ros2_ws/src/so101_arm_bridge/so101_arm_bridge/bimanual_stream_adapter.py:1050-1142 | the feeder, then every safety check on the replies read after it, then release after a fresh and settled finite plan; exactly when is PollRelease.PollDecides |
| HostAdapterObject.Adapter.Stop | ros2_ws/src/so101_arm_bridge/so101_arm_bridge/bimanual_stream_adapter.py:1144-1159 | the whole new state of stop, from the reply to the stop request |
| HostAdapterObject.Adapter.Prepare | ros2_ws/src/so101_arm_bridge/so101_arm_bridge/bimanual_stream_adapter.py:409-444 | single use; faults on any failed identity, health, dispatch, tracking or capture check, and takes the captured pose otherwise |
| HostHealth.AnchorLoop | ros2_ws/src/so101_arm_bridge/so101_arm_bridge/bimanual_stream_adapter.py:363-407 | the captured pose is taken exactly when it is complete and every joint is inside the operational limits |
| HostLaws.PreparedWhen | ros2_ws/src/so101_arm_bridge/so101_arm_bridge/bimanual_stream_adapter.py:409-444 | prepared at a pose exactly when the right firmware answers, its heart beats, nothing is on its way or being checked, and that pose was captured whole and inside limits |
| HostLaws.LaunchedWhen | ros2_ws/src/so101_arm_bridge/so101_arm_bridge/bimanual_stream_adapter.py:446-479 | the second capture, the arming and the heartbeats, each exactly |
| HostLaws.PrepareDecides | ros2_ws/src/so101_arm_bridge/so101_arm_bridge/bimanual_stream_adapter.py:409-444 | an adapter is prepared once |
| HostAdapterObject.Adapter.ClaimFor | ros2_ws/src/so101_arm_bridge/so101_arm_bridge/bimanual_stream_adapter.py:351-361 | first claim takes ownership and a new epoch, a different owner is refused |
| HostAdapter.NextEpoch | ros2_ws/src/so101_arm_bridge/so101_arm_bridge/bimanual_stream_adapter.py:346-349 | a new epoch is never zero and never the old one |
| HostLaws.OthersChangeNothing | ros2_ws/src/so101_arm_bridge/so101_arm_bridge/bimanual_stream_adapter.py:351-361 | once somebody owns the adapter, a request of anybody else is refused and changes nothing on either side |
| HostLaws.OwnerStaysForGood | ros2_ws/src/so101_arm_bridge/so101_arm_bridge/bimanual_stream_adapter.py:351-361 | over every run the first owner stays |
| HostLaws.EpochIsCycle | ros2_ws/src/so101_arm_bridge/so101_arm_bridge/bimanual_stream_adapter.py:346-349 | epochs run through every 32-bit number but zero before one comes again |
| HostLaws.EpochMovesByOne | ros2_ws/src/so101_arm_bridge/so101_arm_bridge/bimanual_stream_adapter.py:785-1048 | once there is an owner an action moves the epoch by one or not at all, and only a start or splice does |
| HostLaws.StopDecides | ros2_ws/src/so101_arm_bridge/so101_arm_bridge/bimanual_stream_adapter.py:1144-1159 | a stop by the owner ends the session exactly when the MCU confirms it, and faults otherwise |
| HostLaws.EndIsSilent | ros2_ws/src/so101_arm_bridge/so101_arm_bridge/bimanual_stream_adapter.py:326-344 | over every run a stopped or faulted adapter stays so and sends nothing: only the MCU's own events go on |
| HostPlacement.RefusedWhen | ros2_ws/src/so101_arm_bridge/so101_arm_bridge/bimanual_stream_adapter.py:785-1159 | exactly which calls are refused without a fault |
| HostPlacement.StartChecks | ros2_ws/src/so101_arm_bridge/so101_arm_bridge/bimanual_stream_adapter.py:785-845 | the checks of a start, in terms of the call and the state |
| HostAdapterObject.ValidatePoints | ros2_ws/src/so101_arm_bridge/so101_arm_bridge/bimanual_stream_adapter.py:546-602 | accepts exactly the routes whose every point is on the grid, in the lead window, inside limits and within the step of the one before |
| HostAdapterObject.ValidateFinitePlan | ros2_ws/src/so101_arm_bridge/so101_arm_bridge/bimanual_stream_adapter.py:604-662 | the same for a whole plan of any length, from offset zero |
| HostPlacement.RoutesAreValidated | ros2_ws/src/so101_arm_bridge/so101_arm_bridge/bimanual_stream_adapter.py:546-602 | what the validator accepts, joint by joint and neighbour by neighbour in plain integers |
| HostPlacement.PlansAreValidated | ros2_ws/src/so101_arm_bridge/so101_arm_bridge/bimanual_stream_adapter.py:604-662 | the same for whole plans |
| HostAdapterObject.InterpolateRouteLoop | ros2_ws/src/so101_arm_bridge/so101_arm_bridge/bimanual_stream_adapter.py:751-783 | exact match anywhere first, then the first segment around the tick |
| HostAdapterObject.SelectReady | ros2_ws/src/so101_arm_bridge/so101_arm_bridge/bimanual_stream_adapter.py:682-689 | takes pending samples while they are in the lead window and fewer than the limit, and stops only when one is not (FeederProgress.CountIsMaximal) |
| HostRuns.RunsStayLinked | ros2_ws/src/so101_arm_bridge/so101_arm_bridge/bimanual_stream_adapter.py:664-1159 | over whole runs with late, lost and unanswered requests and the MCU running in between: while active, the host's route is the MCU's plan after the last heartbeat it planned from, and epoch, horizon and policy agree |
| HostRuns.RunsFromReset | ros2_ws/src/so101_arm_bridge/so101_arm_bridge/bimanual_stream_adapter.py:253-1159 | the same from a new adapter beside a reset MCU |
| HostRuns.PerformLinked | ros2_ws/src/so101_arm_bridge/so101_arm_bridge/bimanual_stream_adapter.py:785-1159 | each operation keeps host and MCU in step |
| HostSimulation.AppendInStep | ros2_ws/src/so101_arm_bridge/so101_arm_bridge/bimanual_stream_adapter.py:931-953 | an acknowledged append, from the user or the feeder, extends plan and route alike |
| HostSimulation.SpliceInStep | ros2_ws/src/so101_arm_bridge/so101_arm_bridge/bimanual_stream_adapter.py:1020-1045 | an acknowledged splice cuts plan and route alike, and only happens to streams without horizon |
| HostSimulation.OpenInStep | ros2_ws/src/so101_arm_bridge/so101_arm_bridge/bimanual_stream_adapter.py:849-891 | an acknowledged start leaves an MCU plan that is the host's route |
| HostPlacement.StartPlaces | ros2_ws/src/so101_arm_bridge/so101_arm_bridge/bimanual_stream_adapter.py:785-893 | an accepted start puts each point exactly where asked: the MCU's plan and the pending samples are the points at heartbeat plus offset; a finite plan sends those inside the lead window, nine at most, and its horizon is its last point |
| HostPlacement.AppendPlaces | ros2_ws/src/so101_arm_bridge/so101_arm_bridge/bimanual_stream_adapter.py:895-956 | an accepted append extends the MCU's plan by exactly its points, all moved by the least delay, under one control tick, onto the grid of the last sample |
| HostPlacement.SplicePlaces | ros2_ws/src/so101_arm_bridge/so101_arm_bridge/bimanual_stream_adapter.py:958-1048 | an accepted splice cuts the MCU's plan at the tick asked for, so moved, takes up its trajectory there and goes on with its points under the next epoch |
| HostPlacement.PolicyHolds | ros2_ws/src/so101_arm_bridge/so101_arm_bridge/bimanual_stream_adapter.py:706-731 | while a host is active the MCU's policy is field by field what the host was configured with, and horizon and epoch agree |
| HostGuarantees.QueueEndsRoute | ros2_ws/src/so101_arm_bridge/so101_arm_bridge/bimanual_stream_adapter.py:741-749 | the MCU's queue after the host's heartbeat is a suffix of the host's route; both end in the same sample; epochs and horizons agree |
| HostGuarantees.InterpolatorsEqual | ros2_ws/src/so101_arm_bridge/so101_arm_bridge/bimanual_stream_adapter.py:751-783 | on the same ordered samples the Python and the C interpolator give the same answer at every tick, none included |
| HostGuarantees.InterpolatorsAgree | ros2_ws/src/so101_arm_bridge/so101_arm_bridge/bimanual_stream_adapter.py:1007-1010 | on the MCU's queue and the host's future route they agree wherever both answer; where the MCU answers, the host gives the same exactly when the tick is not before its first future sample |
| HostWitnesses.McuAnswersAlone | ros2_ws/src/so101_arm_bridge/so101_arm_bridge/bimanual_stream_adapter.py:751-783 | a linked active state in which a splice with every lead faults the host, whose heartbeat has dropped the sample before it, although the MCU, still holding that sample, would interpolate and admit it |
| HostGuarantees.HostSplicesAreSeamless | ros2_ws/src/so101_arm_bridge/so101_arm_bridge/bimanual_stream_adapter.py:1002-1038 | the continuity point of an accepted host splice is the MCU's own interpolation on arrival, so the trajectory before it moves by at most one micro-radian |
| HostAdmission.HostAppendsAreAccepted | ros2_ws/src/so101_arm_bridge/so101_arm_bridge/bimanual_stream_adapter.py:895-956 | from any linked state, append is accepted exactly when the host is active and the owner names itself, the heartbeat is healthy, the host's checks pass, the request arrives at an MCU still taking batches and is answered, its first sample still has the minimum lead, its last does not pass the horizon, and the queue has room |
| HostAdmission.AppendsAreAccepted | ros2_ws/src/so101_arm_bridge/so101_arm_bridge/bimanual_stream_adapter.py:914-953 | once the host's checks have passed and the request is received: exactly lead, horizon and room |
| HostAdmission.DrainedAppendStep | ros2_ws/src/so101_arm_bridge/so101_arm_bridge/bimanual_stream_adapter.py:914-930 | an append that passes the host's checks and finds the MCU's queue drained starts an allowed step from the executor's anchor, which is then the tail the host validates against |
| HostWitnesses.FiniteAppendIsRefused | ros2_ws/src/so101_arm_bridge/so101_arm_bridge/bimanual_stream_adapter.py:895-956 | a linked state of a finite stream in which an append passes every check of the host and is refused; the same append to the open-ended stream is accepted |
| HostAdmission.HostSplicesAreAccepted | ros2_ws/src/so101_arm_bridge/so101_arm_bridge/bimanual_stream_adapter.py:958-1048 | the same for the whole of splice: owner, heartbeat, the host's checks, reception, no horizon, a tick that is not zero, both leads, the MCU's first sample, and room after the cut |
| HostAdmission.SplicesAreAccepted | ros2_ws/src/so101_arm_bridge/so101_arm_bridge/bimanual_stream_adapter.py:989-1045 | once the host's checks have passed and the request is received: exactly no horizon, a tick that is not zero, both leads on arrival, a tick not before the MCU's first sample, and room after the cut |
| HostWitnesses.SpliceNeedsTick | ros2_ws/src/so101_arm_bridge/so101_arm_bridge/stream_protocol_v2.py:449-460 | one splice that passes every check of the host with every lead, anywhere on the clock: accepted exactly when its tick is not zero |
| HostWitnesses.ZeroSpliceFails | ros2_ws/src/so101_arm_bridge/so101_arm_bridge/stream_protocol_v2.py:449-460 | the linked state near the end of the clock in which it is zero, and faults the host |
| StartAdmission.HostStartsAreAccepted | ros2_ws/src/so101_arm_bridge/so101_arm_bridge/bimanual_stream_adapter.py:785-893 | from any linked state a start, rolling or finite, is accepted exactly when every check of the host holds, both requests arrive and are answered, the MCU runs no stream and the policy encodes and is inside its caps, and the first batch still has the minimum lead and does not pass the horizon |
| HostAdmission.OpenIsAnswered | firmware/stm32_actuator/src/stream_session_v2.c:80-116 | an open is acknowledged exactly when it arrives, is answered, finds no stream running and carries a policy that encodes and passes the validator |
| HostAdmission.FirstBatchIsAccepted | ros2_ws/src/so101_arm_bridge/so101_arm_bridge/bimanual_stream_adapter.py:855-872 | the first batch of a stream just opened is accepted exactly when it arrives and is answered, has the minimum lead, and does not pass the horizon |
| HostAdmission.AppendVerdict | firmware/stm32_actuator/src/stream_contract_v2.c:194-275 | the firmware's whole contract on a well-made append comes down to lead, horizon and room |
| HostAdmission.SpliceVerdict | firmware/stm32_actuator/src/stream_contract_v2.c:194-302 | and on a well-made splice to lead, position and room |
| HostAdmission.RouteIsWellmade | ros2_ws/src/so101_arm_bridge/so101_arm_bridge/bimanual_stream_adapter.py:546-602 | what the host validates meets every ordering, lead, limit and step check of the firmware |
| Feeder.RunsConserveThePlan | ros2_ws/src/so101_arm_bridge/so101_arm_bridge/bimanual_stream_adapter.py:664-704 | through polls, refused or lost requests, faults, stops and whatever the MCU does, the samples the MCU has admitted followed by those pending are the validated plan, each once and in order, under one horizon and epoch |
| Feeder.FeedKeeps | ros2_ws/src/so101_arm_bridge/so101_arm_bridge/bimanual_stream_adapter.py:785-1159 | from an active finite plan an action keeps that exactly when it is not an append or splice that passes, in terms of the call and the state it meets; and a splice only passes when the plan ends at tick zero |
| Feeder.InterferesWhenAccepted | ros2_ws/src/so101_arm_bridge/so101_arm_bridge/bimanual_stream_adapter.py:785-1048 | those are exactly the appends, splices and starts that are accepted |
| HostWitnesses.AppendBreaksPlan | ros2_ws/src/so101_arm_bridge/so101_arm_bridge/bimanual_stream_adapter.py:895-956 | a plan of three points with one pending, an append between the last two that is accepted, and conservation broken by it |
| Feeder.FedPlanTakesNoAppend | ros2_ws/src/so101_arm_bridge/so101_arm_bridge/bimanual_stream_adapter.py:895-956 | once everything of a plan with a horizon has been sent, no append is accepted |
| Feeder.StartFeeds | ros2_ws/src/so101_arm_bridge/so101_arm_bridge/bimanual_stream_adapter.py:785-893 | an accepted finite start establishes that for the plan it validated |
| StartAdmission.FinitePlanIsGood | ros2_ws/src/so101_arm_bridge/so101_arm_bridge/bimanual_stream_adapter.py:604-662 | a validated plan is in order, inside limits, whole control ticks apart and within the step |
| StartAdmission.FirstSliceIsWellmade | ros2_ws/src/so101_arm_bridge/so101_arm_bridge/bimanual_stream_adapter.py:804-817 | the samples a finite start sends at once are those inside the lead window, nine at most, and meet every check of the firmware, however long the plan |
| Feeder.PumpsAreAccepted | ros2_ws/src/so101_arm_bridge/so101_arm_bridge/bimanual_stream_adapter.py:664-704 | every batch the feeder sends is accepted exactly when its first sample still has the minimum lead on arrival and the queue has room |
| Feeder.RoomWhenCaughtUp | ros2_ws/src/so101_arm_bridge/so101_arm_bridge/bimanual_stream_adapter.py:680-689 | and there is room whenever the MCU has applied what the host has dropped |
| FeederProgress.CountIsMaximal | ros2_ws/src/so101_arm_bridge/so101_arm_bridge/bimanual_stream_adapter.py:680-689 | the selection stops only at the end, at a sample beyond the lead window, or at the limit |
| FeederProgress.TurnSendsAllItMay | ros2_ws/src/so101_arm_bridge/so101_arm_bridge/bimanual_stream_adapter.py:664-704 | after a turn that does not fail nothing is pending, or the next sample lies beyond the lead window of the heartbeat, or nine samples went, or route and sent samples fill the sixteen slots; what went is the beginning of what was pending |
| FeederProgress.TurnFails | ros2_ws/src/so101_arm_bridge/so101_arm_bridge/bimanual_stream_adapter.py:664-704 | a turn fails exactly when something is pending and there is no heartbeat, horizon or tail, the next sample is closer than the minimum lead, or what may go is not acknowledged |
| FeederProgress.TurnSucceeds | ros2_ws/src/so101_arm_bridge/so101_arm_bridge/bimanual_stream_adapter.py:664-704 | a turn in time, at an MCU that has caught up, does not fail |
| FeederProgress.RunsFeedOn | ros2_ws/src/so101_arm_bridge/so101_arm_bridge/bimanual_stream_adapter.py:664-704 | polled at most `period` apart with requests that take at most `delay`, together within the slack a turn leaves above the minimum lead, a plan is fed over the whole run without a fault |
| FeederProgress.PlanIsWhollySent | ros2_ws/src/so101_arm_bridge/so101_arm_bridge/bimanual_stream_adapter.py:664-893 | so an accepted finite plan has been wholly sent by the first poll within that slack of its last point, and the MCU's plan is then the validated one |
| HostPacing.RunsKeepPhase | ros2_ws/src/so101_arm_bridge/so101_arm_bridge/bimanual_stream_adapter.py:664-1159 | over host runs in which nothing interferes and the MCU's own steps come every 5 ms, between operations and while requests are on their way, the MCU is on time as long as the host is active |
| PlanCompletion.HostPlanCompletes | ros2_ws/src/so101_arm_bridge/so101_arm_bridge/bimanual_stream_adapter.py:664-893 | after a finite start that passes and such a run, with nothing pending and some of the plan queued in a running MCU: undisturbed it is running with an output at every step until the control tick of the plan's last point and SUCCEEDED there with that point as output; a plan whose last tick is zero was opened without a horizon and never succeeds |
| TendedPlan.TendedPlanThrives | ros2_ws/src/so101_arm_bridge/so101_arm_bridge/bimanual_stream_adapter.py:664-893 | a finite plan whose points are close enough for the poll period, started and polled in time beside an MCU stepped on the beat: before its last tick the host is active, sent plus pending is the plan, and the MCU is up with something of it queued, so neither side underruns or faults; nothing is assumed of either side's state along the run |
| TendedPlan.TendedPlanIsSent | ros2_ws/src/so101_arm_bridge/so101_arm_bridge/bimanual_stream_adapter.py:664-893 | and by the first poll within the slack of its last point all of it has been sent |
| TendedPlan.TendedPlanCompletes | ros2_ws/src/so101_arm_bridge/so101_arm_bridge/bimanual_stream_adapter.py:664-893 | from its start to SUCCEEDED, then: an output at every step until the control tick of the last point, which is the output there |
| PollRelease.CheckDecides | ros2_ws/src/so101_arm_bridge/so101_arm_bridge/bimanual_stream_adapter.py:1050-1142 | the checks of a poll against the executor's state and the replies: fault exactly on an alarm or a joint astray, release exactly when home, no change otherwise |
| PollRelease.PollDecides | ros2_ws/src/so101_arm_bridge/so101_arm_bridge/bimanual_stream_adapter.py:1050-1142 | in every linked state a poll of an active host faults if its feeder turn does; then it goes to READY exactly when the executor has SUCCEEDED, every reply is healthy, services are quiet, no age exceeds the bound and every joint is within its own tolerance of the last point of the MCU's plan, with the measured pose as next anchor; it faults exactly on an unhealthy reply, an executor alarm, stale feedback or a joint astray |
| PollRelease.PollDecidesFromReset | ros2_ws/src/so101_arm_bridge/so101_arm_bridge/bimanual_stream_adapter.py:1050-1142 | the same over every run from a new adapter beside a reset MCU |
| PollRelease.PlanIsReleased | ros2_ws/src/so101_arm_bridge/so101_arm_bridge/bimanual_stream_adapter.py:1050-1142 | joined to HostPlanCompletes: a plan started, fed and stepped on the beat is released by a poll exactly when its last point's control tick has passed and the arm is measured to be there |
| PlanCompletion.OpenEndedNeverSucceeds | firmware/stm32_actuator/src/stream_executor_v2.c:375-388 | a stream opened without a horizon never succeeds, whatever is appended, spliced, started, stepped or fed back |
| HostWitnesses.TickZeroPlanNeverSucceeds | ros2_ws/src/so101_arm_bridge/so101_arm_bridge/bimanual_stream_adapter.py:845-853 | from reset, an accepted finite plan whose last point falls on tick zero |
| GoalMap.MapGoals | firmware/stm32_actuator/src/bimanual_goal_map.c:24-76 | both arms' goals are written, or neither array changes and the first failing joint is reported |
| GoalMap.GoalMeans | firmware/stm32_actuator/src/bimanual_goal_map.c:24-76 | each joint's goal is the remainder of the nearest count to its angle, or its refusal says what is wrong |
| GoalMap.MapMeans | firmware/stm32_actuator/src/bimanual_goal_map.c:24-76 | the atomic map succeeds with goals that all mean their angles, or names the first joint that cannot be mapped |
| GoalMap.ModuloIsEuclidean | firmware/stm32_actuator/src/bimanual_goal_map.c:16-22 | the corrected C remainder is the mathematical one |
| GoalMap.RawDeltaNearest | firmware/stm32_actuator/src/bimanual_goal_map.c:9-14 | rounding picks the nearest count |
| OperationalLimits.RowIsConsistent | firmware/stm32_g474_single_arm/Core/Src/bimanual_operational_limits.c:14-32 | every row of the table is a valid map narrower than a turn whose angle limits are its count limits |
| OperationalLimits.UnwrapIsExact | firmware/stm32_g474_single_arm/Core/Src/bimanual_operational_limits.c:77-109 | a reading unwraps to the one count in the limits congruent to it, and fails exactly when there is none |
| OperationalLimits.UnwrapModuloLoop | firmware/stm32_g474_single_arm/Core/Src/bimanual_operational_limits.c:77-109 | the match-counting loop computes that |
| OperationalLimits.StepsAreUndone | firmware/stm32_g474_single_arm/Core/Src/bimanual_operational_limits.c:111-142 | an allowed step moves the count by exactly its delta and is undone by the opposite step |
| OperationalLimits.StepIsExact | firmware/stm32_g474_single_arm/Core/Src/bimanual_operational_limits.c:111-142 | a step is allowed exactly when some count inside the limits has the present reading and stays inside by the step; the target is what it then reads |
| OperationalLimits.LimitsAreMapped | firmware/stm32_g474_single_arm/Core/Src/bimanual_operational_limits.c:144-191 | inside the loaded angle limits the loaded goal map never refuses a joint |
| OperationalLimits.RunsAreFaithful | firmware/stm32_g474_single_arm/Core/Src/bimanual_operational_limits.c:193-212 | in every run of the executor with this table, the goal map accepts whatever is dispatched and each modulo-4096 goal reads back as the count meant |
| JointUnwrap.JointUnwrapper.Reset | firmware/stm32_actuator/src/joint_unwrap.c:23-30 | unbinds and clears the state |
| JointUnwrap.JointUnwrapper.Bind | firmware/stm32_actuator/src/joint_unwrap.c:32-83 | binds to the nearest count, or changes nothing |
| JointUnwrap.BindFindsTheOnlyOne | firmware/stm32_actuator/src/joint_unwrap.c:32-83 | binding succeeds exactly when some int32 count congruent to the reading lies in the window, and it is then the only one |
| JointUnwrap.BindRefusals | firmware/stm32_actuator/src/joint_unwrap.c:32-83 | each refusal to bind, exactly |
| JointUnwrap.ScanIsNearest | firmware/stm32_actuator/src/joint_unwrap.c:37-71 | three turns around the truncated quotient are enough to find the nearest count and to see ties |
| JointUnwrap.JointUnwrapper.Observe | firmware/stm32_actuator/src/joint_unwrap.c:85-121 | the whole new state of an update |
| JointUnwrap.UpdateTracks | firmware/stm32_actuator/src/joint_unwrap.c:85-121 | an update follows any motion below half a turn and refuses exactly half a turn |
| JointUnwrap.UpdateFindsTheOnlyOne | firmware/stm32_actuator/src/joint_unwrap.c:85-121 | an update succeeds exactly when some int32 count with that reading is less than half a turn away, takes that one, and leaves the state otherwise |
| JointUnwrap.UnwrappingTracksTruth | firmware/stm32_actuator/src/joint_unwrap.c:85-121 | along any such motion the unwrapped count is the true position after every update |
| JointUnwrap.CountsRoundTrip | firmware/stm32_actuator/src/joint_unwrap.c:123-195 | counts to micro-radians and back is the identity whenever the angle fits, for both directions and any zero |
| JointUnwrap.AngleIsNearest | firmware/stm32_actuator/src/joint_unwrap.c:123-149 | the angle of a count is the nearest micro-radian in the joint's direction, refused exactly when zero or direction is none or no int32 holds it |
| JointUnwrap.CountIsNearest | firmware/stm32_actuator/src/joint_unwrap.c:151-195 | the count of an angle is the nearest one, inside limits, and the reading its remainder; each refusal is true |
| JointUnwrap.AngleRoundTrip | firmware/stm32_actuator/src/joint_unwrap.c:123-195 | micro-radians to counts and back errs by at most 767 |
| JointUnwrap.AngleBoundIsTight | firmware/stm32_actuator/src/joint_unwrap.c:123-195 | and 767 is reached |
| SetpointQueue.SetpointRing.PushBatch | firmware/stm32_actuator/src/setpoint_queue.c:35-86 | on the ring's contents: all samples go in at the back, or none |
| SetpointQueue.SetpointRing.TakeDue | firmware/stm32_actuator/src/setpoint_queue.c:88-113 | takes the front exactly when its tick is the one asked for |
| SetpointQueue.SetpointRing.Peek | firmware/stm32_actuator/src/setpoint_queue.c:115-127 | the front of the contents |
| SetpointQueue.SetpointRing.Clear | firmware/stm32_actuator/src/setpoint_queue.c:28-33 | empties the contents |
| SetpointQueue.PushIsExact | firmware/stm32_actuator/src/setpoint_queue.c:35-86 | a push succeeds exactly when there is room and every sample is on time, after the one before it and inside limits; order and limits of the queue are kept either way |
| SetpointQueue.PushReasons | firmware/stm32_actuator/src/setpoint_queue.c:35-86 | each refusal of a push names what is wrong with the samples |
| SetpointQueue.DueIsExact | firmware/stm32_actuator/src/setpoint_queue.c:88-113 | empty, due, still to come or gone by, exactly |
| BufferedPlan.RunsTrackThePlan | firmware/stm32_actuator/src/buffered_executor.c:59-280 | with a forward clock and leads inside the half-window: what was accepted is a plan whose ticks strictly increase across the wrap of the clock, what was applied is its beginning, none of it early, and while accepting the queue is the rest |
| BufferedPlan.RunsFromInitTrack | firmware/stm32_actuator/src/buffered_executor.c:37-280 | the same from initialisation, with nothing assumed of the queue; SUCCEEDED means the whole plan was applied |
| BufferedPlan.AppliedIsOutput | firmware/stm32_actuator/src/buffered_executor.c:188-255 | the sample a step takes off the queue is what it puts out |
| BufferedExecutorObject.Executor.StepTo | firmware/stm32_actuator/src/buffered_executor.c:153-280 | the whole new state, result and output of a step; BufferedStory.NextStep and BufferedRuns.StepExits say what that is without it |
| BufferedExecutorObject.Executor.Admit | firmware/stm32_actuator/src/buffered_executor.c:59-97 | the whole new state of an admission |
| BufferedExecutorObject.Executor.Begin | firmware/stm32_actuator/src/buffered_executor.c:111-151 | the whole new state of start |
| BufferedExecutorObject.Executor.InterruptBy | firmware/stm32_actuator/src/buffered_executor.c:282-348 | planned hold, cancel, connection loss and tracking error |
| BufferedExecutorObject.Executor.End | firmware/stm32_actuator/src/buffered_executor.c:22-35 | a forced end clears the queue and records why |
| BufferedRuns.StepExits | firmware/stm32_actuator/src/buffered_executor.c:153-280 | exactly when a running step ends in output, missed tick or a clock gone back; the empty-queue, queue-rejected and elapsed-beyond-segment exits are never taken; the output is the due sample, or the point that the elapsed share of the way from the anchor to the next sample comes to, truncated; it lies between them and inside limits |
| BufferedStory.NextStep | firmware/stm32_actuator/src/buffered_executor.c:153-280 | in every timely run the next step of a running executor, from the samples accepted and applied: output of the due sample, success with the last one of a closed input, underrun, missed tick, or point of the line |
| BufferedStory.RunsTellFromInit | firmware/stm32_actuator/src/buffered_executor.c:37-348 | every timely run from initialisation keeps that story |
| BufferedStory.StartDecides | firmware/stm32_actuator/src/buffered_executor.c:111-151 | a run starts exactly when it waits, has enough samples unless the input is closed, and a pose inside limits before the first |
| BufferedStory.AdmitDecides | firmware/stm32_actuator/src/buffered_executor.c:59-97 | a batch is accepted exactly when the run is not over, the input is open, there is room and every sample is on time, in order and inside limits |
| BufferedStory.InterruptDecides | firmware/stm32_actuator/src/buffered_executor.c:282-348 | each interruption ends a live run in its own state, reason and safe stop, and a finished one not at all |
| BufferedSlew.RunsMoveOn | firmware/stm32_actuator/src/buffered_executor.c:153-280 | stepped at most `period` apart, on a plan that moves at most k in `period` plus the allowed lateness, every output lies between the one before it and the sample it heads for, and within k of the one before it |
| BufferedSlew.StartedRunsMoveOn | firmware/stm32_actuator/src/buffered_executor.c:111-280 | the same from a start, whose pose counts as the first output |
| BufferedSlew.OutputsAreClose | firmware/stm32_actuator/src/buffered_executor.c:153-280 | so no two consecutive outputs are further apart than k |
| BufferedRuns.RunsFromInitAreGood | firmware/stm32_actuator/src/buffered_executor.c:37-348 | in every run from initialisation the queue increases, its depth is reported, a terminal state has an empty queue and requires a safe stop unless it is success or planned hold |
| BufferedRuns.TerminalStays | firmware/stm32_actuator/src/buffered_executor.c:59-348 | a terminal executor is not changed by anything that comes after |
| BufferedRuns.SegmentFits | firmware/stm32_actuator/src/buffered_executor.c:271-278 | the interpolation product fits the 64 bits it is computed in |
| BufferedAccounting.RunsBalance | firmware/stm32_actuator/src/buffered_executor.c:59-280 | over every run: accepted samples are applied, queued or discarded, nothing is discarded before the end, and every saturating counter shows its true count |
| BufferedAccounting.RunsFromInitBalance | firmware/stm32_actuator/src/buffered_executor.c:37-280 | the same from initialisation; below saturation the counters balance among themselves |
| BufferedAccounting.FieldsBalance | firmware/stm32_actuator/src/buffered_executor.c:90-238 | below saturation the histogram sums to the applied samples, accepted equals applied plus queued plus discarded, and the recorded index is where the worst lateness occurred |
| BufferedAccounting.BucketsPartition | firmware/stm32_actuator/src/buffered_executor.c:229-238 | every applied sample is in exactly one bucket: one each for a lateness of 0 to 4 ms, the sixth for all above |
| BufferedAccounting.WorstIsFirst | firmware/stm32_actuator/src/buffered_executor.c:220-228 | the maximum is reached first at the recorded sample |
| BufferedRoute.DecodeCommandLoop | firmware/stm32_actuator/src/buffered_command_route.c:32-96 | decodes a command, or gives the first error |
| BufferedRoute.DecodeIsExact | firmware/stm32_actuator/src/buffered_command_route.c:32-96 | accepts exactly the byte strings of well-formed commands: increasing ticks, clear slots for the other arm |
| BufferedRoute.DryRunIsFaithful | firmware/stm32_actuator/src/buffered_command_route.c:149-160 | a validation-only command changes nothing and returns what the same command without the flag would, END included |
| BufferedRoute.EndCloses | firmware/stm32_actuator/src/buffered_command_route.c:162-180 | END through an accepted admission always closes the input |
| BufferedRoute.RouteRunsFromInitAreGood | firmware/stm32_actuator/src/buffered_command_route.c:98-208 | every run of a route from initialisation keeps the executor's invariant under the limits it was given and runs only what was begun and asked to start |
| BufferedRoute.CommandDecides | firmware/stm32_actuator/src/buffered_command_route.c:119-181 | in every run, from the commands accepted so far: a flag that is none, a begin or start request out of place, or the executor's own verdict |
| BufferedRoute.BeginDecides | firmware/stm32_actuator/src/buffered_command_route.c:183-200 | a route starts exactly when begun, asked to and not yet started, and its executor starts |
| BufferedRoute.RouteRunsRecord | firmware/stm32_actuator/src/buffered_command_route.c:98-208 | over every run the route's flags, request and count are those of the commands it accepted |
| BufferedRoute.DecodeReasons | firmware/stm32_actuator/src/buffered_command_route.c:32-96 | each refusal to decode is true of the bytes |
| BufferedRouteObject.CommandRoute.Admit | firmware/stm32_actuator/src/buffered_command_route.c:119-181 | the whole new state of route admission |
| BufferedRouteObject.CommandRoute.DryRun | firmware/stm32_actuator/src/buffered_command_route.c:149-160 | runs the real admission on the real ring and puts every slot, head, count and diagnostic back |
| BufferedRouteObject.CommandRoute.Begin | firmware/stm32_actuator/src/buffered_command_route.c:183-200 | the whole new state of route start |
| Cobs.RoundTrip | firmware/stm32_actuator/src/cobs.c:3-98 | decoding undoes encoding, for every byte string |
| Cobs.NoZero | firmware/stm32_actuator/src/cobs.c:3-57 | the encoding holds no zero |
| Cobs.LengthBound | firmware/stm32_actuator/src/cobs.c:3-57 | and is at most n + n / 254 + 1 long |
| Cobs.EncodingRules | firmware/stm32_actuator/src/cobs.c:3-57 | the coding of any string run by run, as the paper defines it: 254 bytes without a zero take 255, fewer take their length plus one and stand for a zero or the end |
| Cobs.DecodingRules | firmware/stm32_actuator/src/cobs.c:59-98 | and what each code byte decodes to, or why not |
| Cobs.EncodeInto | firmware/stm32_actuator/src/cobs.c:3-57 | the in-place encoder succeeds exactly when the encoding fits, and then writes it |
| Cobs.DecodeInto | firmware/stm32_actuator/src/cobs.c:59-98 | the in-place decoder succeeds exactly when the input decodes and fits, and then writes it |
| Cobs.HostEncode | ros2_ws/src/so101_arm_bridge/so101_arm_bridge/wire.py:25-44 | the host's encoder produces the same bytes on every input |
| Cobs.HostDecode | ros2_ws/src/so101_arm_bridge/so101_arm_bridge/wire.py:46-63 | the host's decoder gives the same answer on every input |
| Crc32c.CrcLoop | firmware/stm32_actuator/src/crc32c.c:3-16 | the nested loops compute the CRC as folded shift steps |
| Crc32c.HostCrc | ros2_ws/src/so101_arm_bridge/so101_arm_bridge/wire.py:16-23 | the host's CRC is the same on every input |
| Crc32c.BurstDetected | firmware/stm32_actuator/src/crc32c.c:3-16 | two different strings of equal length that differ only within four consecutive bytes never have the same CRC |
| Crc32c.WindowDetected | firmware/stm32_actuator/src/crc32c.c:3-16 | the same, by position of the window |
| Crc32c.ShiftInjective | firmware/stm32_actuator/src/crc32c.c:11-12 | one shift step loses nothing |
| Crc32c.KnownValue | firmware/stm32_actuator/src/crc32c.c:3-16 | the CRC of the two letters "ab" is E2A22936, a value in which polynomial, start word and final complement all take part |
| FrameCodec.FrameRoundTrip | firmware/stm32_actuator/src/protocol.c:104-204 | a frame encoded into any sufficient buffer ends in its only zero and decodes to itself |
| FrameCodec.DecodeIsExact | firmware/stm32_actuator/src/protocol.c:150-204 | the decoder accepts exactly the codings of serialised frames |
| FrameCodec.EncodeFits | firmware/stm32_actuator/src/protocol.c:104-148 | the maximum encoded size always suffices |
| FrameCodec.FrameLayout | firmware/stm32_actuator/src/protocol.c:104-148 | where every field of a frame is, low bytes first, and over what its CRC runs |
| FrameCodec.EncodesWhen | firmware/stm32_actuator/src/protocol.c:104-148 | each refusal to encode, exactly |
| FrameCodec.RefusalsAreTrue | firmware/stm32_actuator/src/protocol.c:150-204 | each refusal to decode is true of the bytes |
| FrameCodec.CodecsAgree | ros2_ws/src/so101_arm_bridge/so101_arm_bridge/stream_protocol_v2.py:519-548 | on every packet, with or without its delimiter, the host decodes exactly the frames the firmware decodes whose message type it enumerates |
| FrameCodec.HostToFirmware | ros2_ws/src/so101_arm_bridge/so101_arm_bridge/stream_protocol_v2.py:497-516 | what the host sends a knowing firmware receives |
| FrameCodec.Resynchronises | firmware/stm32_actuator/src/protocol.c:213-247 | from any parser state, after any bytes and one zero, the coding of any sendable frame is collected in silence and delivers exactly that frame at its delimiter |
| FrameCodec.StreamIsCut | firmware/stm32_actuator/src/protocol.c:213-247 | over any stream of packets, good or bad, long or short, the parser says to each what it says to that packet alone, in order and nothing else |
| FrameCodec.EveryStreamIsPackets | firmware/stm32_actuator/src/protocol.c:213-247 | and every byte string that ends in a zero is such a stream |
| FrameCodec.StreamParser.PushByte | firmware/stm32_actuator/src/protocol.c:213-247 | the whole new state of the parser and its answer |
| ServoResponse.ResponseParser.PushByte | firmware/stm32_g474_single_arm/Core/Src/servo_response_parser.c:59-169 | the whole new state of the reply parser and its answer |
| ServoResponse.FinishedMeansReply | firmware/stm32_g474_single_arm/Core/Src/servo_response_parser.c:120-168 | a finished reply means the last bytes were FF FF, the expected id, the length, a status, the data and a correct checksum; ready exactly when the status is zero |
| ServoResponse.FinishedRepeats | firmware/stm32_g474_single_arm/Core/Src/servo_response_parser.c:120-168 | a reply that was not taken is reported again by the next byte, with the same data |
| ServoResponse.RejectionMeans | firmware/stm32_g474_single_arm/Core/Src/servo_response_parser.c:23-41 | each rejection, on the bytes seen: the length, the sum, the servo or the expected length is wrong; the frame's bytes are counted as discarded |
| ServoResponse.SearchingDiscards | firmware/stm32_g474_single_arm/Core/Src/servo_response_parser.c:69-100 | bytes before a header are counted one by one, and nothing else is |
| ServoResponse.FeedFindsReply | firmware/stm32_g474_single_arm/Core/Src/servo_response_parser.c:59-169 | over any stream, the bytes taken when a reply is finished end with exactly that reply |
| ServoResponse.ReplyIsFound | firmware/stm32_g474_single_arm/Core/Src/servo_response_parser.c:69-168 | from any state still looking for a header the expected reply is found at its last byte |
| ServoWindow.RxWindow.Look | firmware/stm32_g474_single_arm/Core/Src/servo_rx_window.c:27-86 | the whole new state and result of one look at the ring |
| ServoWindow.ChunkingIsIrrelevant | firmware/stm32_g474_single_arm/Core/Src/servo_rx_window.c:27-86 | while fewer than sixty-four bytes have arrived, any chunking of the producer's advances around a ring of any capacity gives the parser state, byte count, result and data of pushing the bytes one by one, over the wrap of the absolute counter where the capacity divides 2^32 |
| ServoWindow.WindowFindsReply | firmware/stm32_g474_single_arm/Core/Src/servo_rx_window.c:63-78 | the data handed out is that of a correct reply in the stream |

## Left out

- The STM32 peripherals, interrupts, timers, serial port, ROS node, device
  discovery and backend lease: no semantics visible in the source.
- Dispatch and response packing in binary_control.c, apart from which step
  results reach the servos; null-argument checks everywhere.
- Floating-point radians: host points start as int32 micro-radians, so the
  conversion and its rounding are not modelled, nor are non-numeric inputs.
- Serial timing, retries and sequence echoes of the transport: the MCU is a
  state machine that receives a request at some tick and answers or does not.
- Owner names are taken as already trimmed; diagnostics text, host-clock
  keepalive gating and the feedback failure streak of the adapter are not
  modelled.
- HostAdapterObject.Adapter.Stop: what a stop does to the MCU is outside the
  stream; so is the stop request that a fault of an armed session sends.
- Fields of replies that no check of the adapter reads.
- check_feedback over a whole vector: the loop over check_joint_feedback.
- status frame encoding of the buffered route, and the archived shadow limits.
- CaptureRecent, ArmPermitted, HardResyncRequired and DeadlineExpired of the
  servo window: one-line facts.
- The frame encoder and decoder are modelled on byte sequences, not on the
  buffers they fill; the COBS and CRC routines under them are the loops.
- Interpolation.LerpDefined: signed overflow in C is undefined when two ends of
  a segment are 2^31 or more apart; the other interpolation lemmas use the
  wrapped value there, and show it is still the exact one.
- SlewBound.RunsAreSlewed: splices with a jump, which the firmware admits up to
  one step limit but the host does not build, are outside it; SpliceBound
  accounts for them.
- SlewBound.StartedRunsAreSlewed: the queue it starts on holds no splice.
- ServoResponse.ResponseParser.PushByte: asks for room in the body's array, as C
  does; a byte after an untaken reply that has filled it would lie outside.
- ServoWindow.ChunkingIsIrrelevant: for fewer than sixty-four bytes, and no wrap
  of the absolute counter around a ring whose capacity does not divide 2^32.
- The host's configuration may hold any integers; those that do not fit the
  wire make the open request fail, as in the source.
