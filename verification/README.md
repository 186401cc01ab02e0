# Verified model of the Elfin3 CAN FD trajectory link

The system moves a six-joint arm. A ROS 2 host turns joint targets into CAN FD frames and
streams them, on credit, to an STM32 device. The device keeps a 15-slot ring of trajectory
points, and its EtherCAT task takes one point per process-data cycle and sends it to six
servo axes on three slaves. This project models both ends and the link between them in
Dafny 4.11 and proves what the two programs guarantee together.

## Layout

| file | what it models |
|---|---|
| `Words.dfy` | machine words and their wrap-around |
| `RobotTrajectory.dfy` | the device's trajectory ring, as a specification and as the ring object |
| `Pdo.dfy`, `Execution.dfy`, `BufferRules.dfy` | the process image, the EtherCAT task that empties the ring while frames and holds arrive, and its rules |
| `CspScheduler.dfy` | the host scheduler, as a specification and as the mutex-protected object |
| `Link.dfy`, `LinkInvariant.dfy`, `LinkSteps.dfy` | host and device joined by two lossy FIFO channels, and the invariant every step keeps |
| `Streaming.dfy`, `Prefill.dfy`, `Running.dfy`, `HoldDiscipline.dfy`, `CycleRules.dfy`, `CallRules.dfy`, `Ledger.dfy` | the results about runs of that system |
| `Scenario.dfy` | its runs to streaming, RUNNING and a confirmed point, for any configuration |
| `HardwareGate.dfy`, `GateRules.dfy`, `GateScenario.dfy` | the ros2_control component in front of the scheduler, its rules, and two runs of it |
| `SdoSlot.dfy`, `DriveRuntime.dfy`, `DriveSession.dfy`, `DriveRules.dfy`, `BrakeRules.dfy` | the brake and drive state machine, its object, one OPERATIONAL session of it, and its rules |
| `EtherCatTask.dfy`, `DriveScenario.dfy` | that session and the trajectory task of `Execution.dfy` on one image, and a run of both to a confirmed point |
| `SdoWorker.dfy` | the worker against the task that wants to close the master |
| `Snapshot.dfy`, `RxQueue.dfy` | the two lock-free structures |
| `FrameCrc.dfy`, `RobotJoint.dfy`, `CanProtocol.dfy`, `SafetyLatch.dfy` | check value, joint units, frame bytes, timeouts |

Concurrent parts are state machines over their critical sections: a run is any sequence of
enabled steps, so a theorem about runs holds for every interleaving. Objects that the
programs update in place are classes, each method proved to perform the function that
specifies it. Fields and counters called history are read by no step. The modules called
rules say a second time, over runs and without those functions, what each step does: from
statuswords, ticks, clocks and the history of events.

## Assumptions

- Clocks enter as freshness booleans or as wrapping tick differences.
- When a status at most 100 ms old may acknowledge a RESET, the host has sent fewer than 256
  frames beyond the last one the device had read when it composed that status
  (`Link.Enabled`). This leaves out runs that lose 256 or more frames in a row under fresh
  statuses. No bound is assumed on the accepts between two statuses.
- A snapshot copy is not overtaken by 2^32 publications (`Snapshot.Enabled`).
- A point in the EtherCAT task's hand is fewer than 2^32 resets old (`Execution.Enabled`).
- One power-up of the device, and all slaves present and mapped. `Execution` and `Link` allow
  any number of OPERATIONAL sessions; the drive state machine is followed through one.

## What the code does that one might not expect

- The constructor of the scheduler accepts a high watermark below the device's prefill
  count of 8. With one, no run ever moves the arm, and with every other one some run does
  (`Running.WhatCanRun`).
- A stream that is still starting can come to rest with a RESET or APPLY sent and no HOLD
  behind it. It comes to rest by a finish, by an abort or, without any call, by a cycle that
  finds the queued head stale (`HoldDiscipline.StartingIsLeft`). A HOLD is then missing when
  the worker was sending the RESET (`FinishRacesReset`), when a recovery forgot a stream
  whose send was refused (`RecoveryForgetsStream`, `StaleHeadForgetsStream`), and when a
  second start forgot a RESET already sent (`StartForgetsReset`). `WhoRestsOwing` says
  exactly which settled states of a run owe a HOLD. The ros2_control component calls start
  only after it saw the stream idle or holding, so `StartForgetsReset` is a run of the
  scheduler's interface; the component does abort starting streams, recover after refused
  sends and leave old targets behind.
- The read cycle that first sees a loss stores its latch before it closes the scheduler's
  gate, and in between the worker can still send a point. It can do so after the gate, too,
  when the bus-off flag, which the receive thread changes without the lock, goes away
  between the two loads of it (`GateScenario.DecidesBeforeTheGate`, `DecidesAfterAFlicker`;
  exactly when: `HardwareGate.WindowExactly`).
- The check value is stored low byte first, so the two bytes around the payload's end are
  not a 16-bit burst, and one corruption pattern there goes unnoticed
  (`FrameCrc.CorruptionDetected`).
- A HOLD, a RESET or a refused APPLY that arrives between taking a point and staging it ends
  the whole OPERATIONAL session, not just the trajectory (`Execution.InterruptionEndsSession`).
- A point that was staged when a HOLD arrives is no longer confirmed, but its targets are
  still committed to the next image (`Execution.HoldDoesNotRecall`).
- Comments at the head of `ECAT.c` and the log line before the OP request say that the
  controlword stays 0x0000 and no enable sequence runs; the code releases the brakes and
  enables the drives, and the model follows the code. The comment on the brake rollback
  promises 0x0007 for ordinary disturbances; the only path to 0x0007 there is the
  unreachable default step.

## Model

| member | source | states |
|---|---|---|
| Streaming.CreditSafety | 六轴机械臂/上位机ros2/src/elfin3_canfd_driver/src/csp_scheduler.cpp:565-646 | In every run, with frames lost, statuses stale and sends made outside the lock: points on the device plus APPLY frames in flight plus a decided APPLY never exceed the high watermark (at most 13 of 15 slots), and while streaming, at every moment of the worker's cycle, the first two never exceed the host's occupied-or-in-flight figure plus the one APPLY sent and not yet counted |
| Streaming.PushNeverFull | 六轴机械臂/下位机stm32/App/Src/robot_trajectory.c:341-360 | No delivered APPLY ever finds the ring full |
| Streaming.OverflowNeverCounted | 六轴机械臂/下位机stm32/App/Src/robot_trajectory.c:341-360 | The overflow counter stays zero over every run |
| Streaming.ExecutedIsWhatWasSent | 六轴机械臂/下位机stm32/App/Src/ECAT_runtime.c:2248-2321 | The confirmed points are a prefix of the accepted ones, which are consecutive frames the host sent, the generation's RESET first; each went out in an image that commanded the sent targets |
| Streaming.SequenceErrorIffLoss | 六轴机械臂/下位机stm32/App/Src/robot_trajectory.c:322-340 | An active device accepts the next APPLY if and only if no frame before it was lost, and otherwise reports a sequence error; the 8-bit sequence cannot alias |
| Streaming.SequenceAgreement | 六轴机械臂/上位机ros2/src/elfin3_canfd_driver/src/csp_scheduler.cpp:362-386 | On a lossless link an APPLY to an active device is always accepted, across holds, aborts, fillers, refused sends and wrap-around |
| LinkInvariant.DecideEffect | 六轴机械臂/上位机ros2/src/elfin3_canfd_driver/src/csp_scheduler.cpp:467-693 | What one decision may do: acknowledge, reset, apply only below the high watermark, or hold; it never touches the wire-visible state otherwise |
| LinkInvariant.CompleteEffect | 六轴机械臂/上位机ros2/src/elfin3_canfd_driver/src/csp_scheduler.cpp:710-757 | What the second locked half may do to stream state, credit and pending RESET, for every stream state it meets |
| LinkInvariant.ReadEffect | 六轴机械臂/下位机stm32/App/Src/app_can.c:354-490 | What one delivered frame does to the device: exactly the accepted frames advance the expected sequence and the accept count, every other one leaves the buffer on hold |
| LinkInvariant.InternalEffect | 六轴机械臂/下位机stm32/App/Src/robot_trajectory.c:394-560 | The EtherCAT task never accepts points, lets the queue only shrink, and keeps or drops the expected sequence |
| LinkSteps.AcknowledgedMeansRead | 六轴机械臂/上位机ros2/src/elfin3_canfd_driver/src/csp_scheduler.cpp:507-550 | A fresh status that acknowledges the RESET was composed after the device had read every frame sent, so the channel is empty when streaming begins |
| LinkSteps.CreditedNeverOvertakes | 六轴机械臂/上位机ros2/src/elfin3_canfd_driver/src/csp_scheduler.cpp:162-178 | The wrapping 16-bit accept count never credits more than the device accepted, even when a jump of 2^15 or more is discarded |
| LinkSteps.DecidedApplyFits | 六轴机械臂/上位机ros2/src/elfin3_canfd_driver/src/csp_scheduler.cpp:586-646 | When a cycle may apply, the true load is below the watermark and fewer than 13 frames are outstanding |
| LinkSteps.DeliverKeepsInv | 六轴机械臂/下位机stm32/App/Src/app_can.c:354-490 | Delivering any frame keeps the joint invariant of host, channels and device |
| LinkSteps.StepKeepsInv | 六轴机械臂/上位机ros2/src/elfin3_canfd_driver/src/csp_scheduler.cpp:435-757 | Every step of host, link and device keeps the joint invariant |
| Prefill.PrefillCountIsExact | 六轴机械臂/上位机ros2/src/elfin3_canfd_driver/src/csp_scheduler.cpp:569-580 | On a lossless link, while the device prefills, the host's delayed figure equals the true load, however stale the status |
| Prefill.PrefillAlwaysProgresses | 六轴机械臂/上位机ros2/src/elfin3_canfd_driver/src/csp_scheduler.cpp:569-646 | A healthy cycle during prefill sends a point if and only if the load is below the high watermark; with a watermark of at least 8 the distance to 8 shrinks (composed over runs by Running.LoadNeverFalls) |
| Prefill.DeliveryFills | 六轴机械臂/下位机stm32/App/Src/robot_trajectory.c:362-382 | Each delivery during prefill turns a point in flight into a queued one |
| Prefill.FullPrefillRuns | 六轴机械臂/下位机stm32/App/Src/robot_trajectory.c:418-428 | With eight points queued the next Take leaves prefill with a point, or drops an expired one |
| Prefill.LowWatermarkStarves | 六轴机械臂/上位机ros2/src/elfin3_canfd_driver/src/csp_scheduler.cpp:60-69 | A high watermark below 8, which the constructor accepts, means no run ever reaches RUNNING or executes a point |
| Scenario.StreamingIsReached | 六轴机械臂/上位机ros2/src/elfin3_canfd_driver/src/csp_scheduler.cpp:467-563 | For every configuration the constructor accepts, streaming with a prefilling device is reachable, so the results about it are not vacuous |
| Scenario.FillOne | 六轴机械臂/上位机ros2/src/elfin3_canfd_driver/src/csp_scheduler.cpp:586-646 | One more decide, send, complete and deliver takes any filling state below the watermark from n queued points to n + 1 |
| Scenario.RunningIsReached | 六轴机械臂/下位机stm32/App/Src/robot_trajectory.c:418-428 | With a high watermark of 8 or more a run of host, link and device reaches RUNNING, the first point taken |
| Scenario.ConfirmationIsReached | 六轴机械臂/下位机stm32/App/Src/ECAT_runtime.c:2305-2321 | And the joined run goes on to confirm a point, so end-to-end order and the soundness of confirmation are not vacuous either |
| Running.LoadNeverFalls | 六轴机械臂/上位机ros2/src/elfin3_canfd_driver/src/csp_scheduler.cpp:569-646 | Over any stretch of a lossless run that keeps streaming and prefilling, the load never falls and is at least the lesser of the high watermark and the starting load plus the healthy cycles in between |
| Running.EightCyclesFill | 六轴机械臂/下位机stm32/App/Src/robot_trajectory.c:418-428 | With a watermark of 8 or more, once load and healthy cycles make eight and the channel is empty, eight points are queued and the next Take runs or drops an expired point |
| Running.WhatCanRun | 六轴机械臂/上位机ros2/src/elfin3_canfd_driver/src/csp_scheduler.cpp:60-69 | Of the configurations the constructor accepts, a run to RUNNING exists if and only if the high watermark is at least 8, and the same for a run that executes a point |
| HoldDiscipline.RestsBehindAHold | 六轴机械臂/上位机ros2/src/elfin3_canfd_driver/src/csp_scheduler.cpp:200-336 | A stream that reached its RESET never rests in holding or reset-required without a HOLD sent after its last RESET or APPLY, for every interleaving with the unlocked send |
| HoldDiscipline.WhoRestsOwing | 六轴机械臂/上位机ros2/src/elfin3_canfd_driver/src/csp_scheduler.cpp:200-336 | Over every run, a settled host owes a HOLD if and only if its latest start never reached a RESET's acknowledgment and either was made with a HOLD owed (or about to be) or was left while the RESET was being sent |
| HoldDiscipline.StartingIsLeft | 六轴机械臂/上位机ros2/src/elfin3_canfd_driver/src/csp_scheduler.cpp:467-505 | A starting stream is left for rest exactly by a finish, an abort, or a cycle with the gate open that finds the queued head stale, and none of these changes what is on the wire or in the sender's hands |
| HoldDiscipline.EndWhileStarting | 六轴机械臂/上位机ros2/src/elfin3_canfd_driver/src/csp_scheduler.cpp:274-321 | However a starting stream is left for rest, the host settles, and owes a HOLD if and only if one was owed at that moment or the worker was then about to send a RESET or APPLY |
| HoldDiscipline.FinishRacesReset | 六轴机械臂/上位机ros2/src/elfin3_canfd_driver/src/csp_scheduler.cpp:274-321 | A run in which the unconditional version fails: finishing or aborting while the RESET is being sent leaves a RESET with no HOLD behind it |
| HoldDiscipline.StartForgetsReset | 六轴机械臂/上位机ros2/src/elfin3_canfd_driver/src/csp_scheduler.cpp:200-233 | A run in which it fails with the worker quiet at the last calls: a second start while the RESET awaits its acknowledgment, then a finish or abort, rests with the RESET sent and no HOLD |
| HoldDiscipline.RecoveryForgetsStream | 六轴机械臂/上位机ros2/src/elfin3_canfd_driver/src/csp_scheduler.cpp:235-263 | A run in which it fails after a refused send in mid-stream: the recovery and the finish or abort after it rest with no HOLD behind what was sent |
| HoldDiscipline.StaleHeadForgetsStream | 六轴机械臂/上位机ros2/src/elfin3_canfd_driver/src/csp_scheduler.cpp:500-504 | A run in which it fails with no call to end anything: after such a recovery the next cycle finds the old target stale and rests in reset-required |
| HoldDiscipline.FaultIsLeftByRecoveryOnly | 六轴机械臂/上位机ros2/src/elfin3_canfd_driver/src/csp_scheduler.cpp:235-263 | The fault state is left exactly by a recovery with the motion gate open |
| CycleRules.StreamingCycle | 六轴机械臂/上位机ros2/src/elfin3_canfd_driver/src/csp_scheduler.cpp:565-685 | Over every run, every outcome of a streaming cycle from the gate, the status against the one that acknowledged the RESET, the clock, and what earlier cycles and sends left: it ends behind a HOLD, applies the head below the limits, waits, or repeats the last target |
| CycleRules.StreamingIsLeft | 六轴机械臂/上位机ros2/src/elfin3_canfd_driver/src/csp_scheduler.cpp:650-684 | With nothing wrong a cycle leaves streaming if and only if the head is stale, or the queue is empty, an earlier cycle of this streaming found it empty too, and the grace has passed; it leaves a HOLD of the target sent last |
| CycleRules.RepeatsWithinGrace | 六轴机械臂/上位机ros2/src/elfin3_canfd_driver/src/csp_scheduler.cpp:650-672 | An APPLY on an empty queue repeats the target of the last completed RESET or APPLY, only within the grace, with a fresh latest target and room |
| CycleRules.AckCycle | 六轴机械臂/上位机ros2/src/elfin3_canfd_driver/src/csp_scheduler.cpp:507-563 | The wait for the acknowledgment ends with a closed gate or latched safety request, with a status that shows a new generation begun by the frame sent last, or with the timeout, in this order |
| CycleRules.StartCycle | 六轴机械臂/上位机ros2/src/elfin3_canfd_driver/src/csp_scheduler.cpp:467-505 | A starting cycle decides the RESET with twelve targets, a fresh head and a resettable device, gives up on a stale head, and otherwise waits |
| CycleRules.FinishCycle | 六轴机械臂/上位机ros2/src/elfin3_canfd_driver/src/csp_scheduler.cpp:686-694 | A finishing cycle sends its HOLD again until the link takes it, and at rest nothing is decided |
| CallRules.CallRule | 六轴机械臂/上位机ros2/src/elfin3_canfd_driver/src/csp_scheduler.cpp:105-336 | Over every run, every outcome of every call: what each makes of queue, stream, terminal state and credit, and that none touches the sender, the wire or the device |
| CallRules.CallAnswers | 六轴机械臂/上位机ros2/src/elfin3_canfd_driver/src/csp_scheduler.cpp:105-336 | What each call answers: taken, started, which condition of a recovery failed, and whether a finish is on its way to holding |
| CallRules.SendRule | 六轴机械臂/上位机ros2/src/elfin3_canfd_driver/src/csp_scheduler.cpp:710-757 | What a refused and a completed send make of stream, last target, credit and pending RESET |
| CallRules.StatusRule | 六轴机械臂/上位机ros2/src/elfin3_canfd_driver/src/csp_scheduler.cpp:149-181 | Over every run, a status is noted, and its accept count credited by the 16-bit difference from what was credited, while the acknowledged generation lasts and below half the range |
| CallRules.StreamingBegins | 六轴机械臂/上位机ros2/src/elfin3_canfd_driver/src/csp_scheduler.cpp:527-549 | Streaming begins with no credit, from the status that acknowledged the RESET |
| Ledger.QueueIsSubmissionOrder | 六轴机械臂/上位机ros2/src/elfin3_canfd_driver/src/csp_scheduler.cpp:105-141 | Over every run, while points are accepted the queue is, in the order of the calls, what was submitted and taken since the latest start or recovery (its own latest target first) less what decisions have drawn |
| Ledger.FramesFollowSubmissions | 六轴机械臂/上位机ros2/src/elfin3_canfd_driver/src/csp_scheduler.cpp:586-672 | Over every run, each RESET and APPLY sent carries a submitted target; a RESET the first of its stream, an APPLY the one before it again, the next submitted, or the first of a later stream |
| Ledger.ConfirmedAsSubmitted | 六轴机械臂/下位机stm32/App/Src/ECAT_runtime.c:2248-2321 | From submission to confirmation: the confirmed points of a generation commanded submitted targets, from the first of a stream on in the order of the calls, none skipped and none out of turn |
| Ledger.CallShape | 六轴机械臂/上位机ros2/src/elfin3_canfd_driver/src/csp_scheduler.cpp:105-141 | A taken target goes to the end of the queue, and any other call leaves the queue to the stream |
| Execution.ConfirmationIsSound | 六轴机械臂/下位机stm32/App/Src/robot_trajectory.c:531-560 | Whenever an exchange confirms a point, the image it sent held that point's six targets at their slaves and axes, and the point is the next accepted one |
| Execution.ExecutedIsPrefixOfAccepted | 六轴机械臂/下位机stm32/App/Src/ECAT_runtime.c:2305-2321 | Confirmed points are a prefix of accepted ones, none before eight were accepted |
| Execution.NothingIsLost | 六轴机械臂/下位机stm32/App/Src/robot_trajectory.c:239-502 | While active, accepted points equal executed plus staged or in hand plus queued |
| Execution.QueueIsConsecutive | 六轴机械臂/下位机stm32/App/Src/robot_trajectory.c:301-502 | In every state of every run queue element i carries sequence expected - count + i mod 256, and a required reset means empty and unstaged |
| Execution.ReasonLastsUntilReset | 六轴机械臂/下位机stm32/App/Src/robot_trajectory.c:50-76 | Over any stretch of a run without a RESET a latched hold reason stays the one reported |
| Execution.InterruptionEndsSession | 六轴机械臂/下位机stm32/App/Src/ECAT_runtime.c:2305-2312 | Over every run, a point taken is not staged and the whole session ends if and only if a hold, a RESET or an APPLY refused for sequence or space came between taking and staging; the image stays as it was |
| Execution.StageFailsWhenInterrupted | 六轴机械臂/下位机stm32/App/Src/robot_trajectory.c:504-529 | A taken point can be staged if and only if its generation still runs; otherwise the buffer is on hold with nothing staged |
| Execution.HoldStopsConfirmation | 六轴机械臂/下位机stm32/App/Src/robot_trajectory.c:531-560 | A hold between staging and the exchange suppresses the confirmation |
| Execution.HoldDoesNotRecall | 六轴机械臂/下位机stm32/App/Src/ECAT_runtime.c:2305-2318 | A hold between staging and commit still lets the point's targets into the next image |
| Execution.TakePointShape | 六轴机械臂/下位机stm32/App/Src/robot_trajectory.c:430-500 | A point leaves only from prefill with eight points or from running, and it is the oldest |
| Execution.TakePointKeepsInv | 六轴机械臂/下位机stm32/App/Src/robot_trajectory.c:394-502 | Taking a point keeps conservation, order and the stage match |
| Execution.StageKeepsInv | 六轴机械臂/下位机stm32/App/Src/ECAT_runtime.c:2305-2318 | Staging a point, or failing to because a RESET came between, keeps the invariant; generations are told apart despite wrap |
| Execution.FramesKeepInv | 六轴机械臂/下位机stm32/App/Src/robot_trajectory.c:239-385 | RESET, APPLY and hold demands keep it at any point of the EtherCAT cycle |
| BufferRules.StaleIsNeverTaken | 六轴机械臂/下位机stm32/App/Src/robot_trajectory.c:418-500 | Over every run, a take hands out the head if and only if points may leave and the head is younger than its validity; an expired head stops the stream: on hold, emptied, counted, POINT_EXPIRED unless another reason stands |
| BufferRules.FourthEmptyTakeUnderruns | 六轴机械臂/下位机stm32/App/Src/robot_trajectory.c:430-460 | Over every run, three takes in a row may find the running queue empty and change nothing that is sent; the fourth is the underrun |
| BufferRules.TakeAnswers | 六轴机械臂/下位机stm32/App/Src/robot_trajectory.c:394-502 | What a take answers: hold while a RESET is required, wait while it prefills, the head, the grace or the underrun |
| BufferRules.TaskRule | 六轴机械臂/下位机stm32/App/Src/ECAT_runtime.c:2491-2545 | Over every run, where each step leaves the task, what it will send next and what history records; only a commit, a relatch or a handler changes the image |
| BufferRules.RecoveryIsCounted | 六轴机械臂/下位机stm32/App/Src/robot_trajectory.c:362-382 | A point accepted after such empty takes ends the grace and is counted as a recovery, and no other point is |
| BufferRules.BufferRule | 六轴机械臂/下位机stm32/App/Src/robot_trajectory.c:50-392 | Over every run, what each frame, hold demand, exchange and staging makes of queue, sequence, reason codes and counters |
| RobotTrajectory.PushKeepsShape | 六轴机械臂/下位机stm32/App/Src/robot_trajectory.c:301-392 | Queue element i carries sequence expected - count + i mod 256; a required reset means empty and unstaged |
| RobotTrajectory.TakeKeepsShape | 六轴机械臂/下位机stm32/App/Src/robot_trajectory.c:394-502 | The same after Take |
| RobotTrajectory.FirstHoldReasonLasts | 六轴机械臂/下位机stm32/App/Src/robot_trajectory.c:50-76 | Every operation but a RESET keeps a non-zero hold reason, and a RESET clears it (over runs: Execution.ReasonLastsUntilReset) |
| RobotTrajectory.Trajectory.Create | 六轴机械臂/下位机stm32/App/Src/robot_trajectory.c:29-34 | The ring starts idle, empty and requiring a reset |
| RobotTrajectory.Trajectory.RequireResetWithReason | 六轴机械臂/下位机stm32/App/Src/robot_trajectory.c:50-76 | The ring operation performs the specified one: drop all, latch the first reason |
| RobotTrajectory.Trajectory.NoteReceived | 六轴机械臂/下位机stm32/App/Src/robot_trajectory.c:178-191 | Records the last received sequence and nothing else |
| RobotTrajectory.Trajectory.NoteRejected | 六轴机械臂/下位机stm32/App/Src/robot_trajectory.c:203-223 | Records a rejection and counts it |
| RobotTrajectory.Trajectory.ResetAndEnqueue | 六轴机械臂/下位机stm32/App/Src/robot_trajectory.c:239-283 | The ring operation performs RESET: new generation, one point, prefill |
| RobotTrajectory.Trajectory.Enqueue | 六轴机械臂/下位机stm32/App/Src/robot_trajectory.c:301-392 | The ring operation performs Push: append at the tail, or the exact refusal |
| RobotTrajectory.Trajectory.Dequeue | 六轴机械臂/下位机stm32/App/Src/robot_trajectory.c:394-502 | The ring operation performs Take: prefill, grace, underrun, expiry, or the head point |
| RobotTrajectory.Trajectory.StageExecution | 六轴机械臂/下位机stm32/App/Src/robot_trajectory.c:504-529 | Stages only the current generation while running with nothing staged |
| RobotTrajectory.Trajectory.ConfirmExecution | 六轴机械臂/下位机stm32/App/Src/robot_trajectory.c:531-560 | Confirms a staged point of the current generation and clears the stage in any case |
| Pdo.SlotsAndJoints | 六轴机械臂/下位机stm32/App/Src/robot_joint.c:5-13 | Joints and drive axes correspond one to one |
| Pdo.PlacedPointIsHeld | 六轴机械臂/下位机stm32/App/Src/ECAT_runtime.c:2260-2296 | Placing a point puts every joint's target and the move controlword at its slave and axis and changes no mode |
| Pdo.HeldTargetsAreUnique | 六轴机械臂/下位机stm32/App/Src/ECAT_runtime.c:2260-2296 | An image holds the targets of at most one point |
| CspScheduler.Scheduler.Create | 六轴机械臂/上位机ros2/src/elfin3_canfd_driver/src/csp_scheduler.cpp:60-69 | Refuses exactly the configurations the constructor throws on |
| CspScheduler.Scheduler.constructor | 六轴机械臂/上位机ros2/src/elfin3_canfd_driver/src/csp_scheduler.cpp:44-70 | A valid configuration starts idle and disabled |
| CspScheduler.Scheduler.SubmitTarget | 六轴机械臂/上位机ros2/src/elfin3_canfd_driver/src/csp_scheduler.cpp:105-141 | Performs the specified submit: refused without all axes or when full, else cached and queued while streaming |
| CspScheduler.Scheduler.Enable | 六轴机械臂/上位机ros2/src/elfin3_canfd_driver/src/csp_scheduler.cpp:143-147 | Sets the motion gate only |
| CspScheduler.Scheduler.UpdateRemoteStatus | 六轴机械臂/上位机ros2/src/elfin3_canfd_driver/src/csp_scheduler.cpp:149-181 | Credits the 16-bit difference only while tracking the active generation and below half the range |
| CspScheduler.Scheduler.Start | 六轴机械臂/上位机ros2/src/elfin3_canfd_driver/src/csp_scheduler.cpp:200-233 | Starting needs the gate open and no fault, and begins from the latest target with no credit |
| CspScheduler.Scheduler.Recover | 六轴机械臂/上位机ros2/src/elfin3_canfd_driver/src/csp_scheduler.cpp:235-263 | Only from reset-required or fault with the gate open; tells the three outcomes apart |
| CspScheduler.Scheduler.BeginHoldLocked | 六轴机械臂/上位机ros2/src/elfin3_canfd_driver/src/csp_scheduler.cpp:265-272 | Leaves through finishing when something was sent |
| CspScheduler.Scheduler.Finish | 六轴机械臂/上位机ros2/src/elfin3_canfd_driver/src/csp_scheduler.cpp:274-291 | Ends a running stream through its HOLD, a starting one at once, and reports whether it is on its way to holding |
| CspScheduler.Scheduler.Abort | 六轴机械臂/上位机ros2/src/elfin3_canfd_driver/src/csp_scheduler.cpp:293-321 | Requires a RESET, through a HOLD when a stream is in progress; never downgrades a fault |
| CspScheduler.Scheduler.RaiseFault | 六轴机械臂/上位机ros2/src/elfin3_canfd_driver/src/csp_scheduler.cpp:323-336 | Goes to fault, through a HOLD when a stream is in progress |
| CspScheduler.Scheduler.CycleStart | 六轴机械臂/上位机ros2/src/elfin3_canfd_driver/src/csp_scheduler.cpp:467-505 | Decides the RESET only with twelve targets, a live head and an idle, unlatched device; a stale head ends the start |
| CspScheduler.Scheduler.CycleAck | 六轴机械臂/上位机ros2/src/elfin3_canfd_driver/src/csp_scheduler.cpp:507-563 | Streaming begins only on a fresh status that names the RESET; safety faults, a closed gate and the timeout end it with a HOLD |
| CspScheduler.Scheduler.CycleWithoutPoint | 六轴机械臂/上位机ros2/src/elfin3_canfd_driver/src/csp_scheduler.cpp:650-684 | Repeats the last target within the grace and the credit, else holds |
| CspScheduler.Scheduler.CycleStreaming | 六轴机械臂/上位机ros2/src/elfin3_canfd_driver/src/csp_scheduler.cpp:565-685 | Applies only below both limits on a healthy status, else waits or holds |
| CspScheduler.Scheduler.Cycle | 六轴机械臂/上位机ros2/src/elfin3_canfd_driver/src/csp_scheduler.cpp:435-694 | The first locked half of a cycle, for every stream state |
| CspScheduler.Scheduler.SendCommand | 六轴机械臂/上位机ros2/src/elfin3_canfd_driver/src/csp_scheduler.cpp:362-386 | The sequence moves exactly when the link takes the frame |
| CspScheduler.Scheduler.CompleteCycle | 六轴机械臂/上位机ros2/src/elfin3_canfd_driver/src/csp_scheduler.cpp:710-757 | The second locked half, after a send whose outcome came from outside the lock |
| HardwareGate.LossClosesTheGate | 六轴机械臂/上位机ros2/src/elfin3_canfd_driver/src/elfin3_canfd_system.cpp:360-435 | From the first read cycle that sees communication loss until a successful reset, no write starts or submits, and outside the window of that first cycle the worker decides only HOLD, whether or not feedback returns |
| HardwareGate.WindowExactly | 六轴机械臂/上位机ros2/src/elfin3_canfd_driver/src/elfin3_canfd_system.cpp:360-435 | With the latch set, in every reachable state, some clock makes the worker decide an APPLY or RESET if and only if that first cycle is in its window and the scheduler, with its gate open, has the credit and status to move |
| HardwareGate.WindowIsBeforeTheGate | 六轴机械臂/上位机ros2/src/elfin3_canfd_driver/src/elfin3_canfd_system.cpp:360-414 | The window: between storing the latch and setting the scheduler's gate, and after it only if the bus-off flag was up at its first load and down at its second with all else ready |
| HardwareGate.LatchedUntilReopened | 六轴机械臂/上位机ros2/src/elfin3_canfd_driver/src/elfin3_canfd_system.cpp:1082-1100 | The latch goes away exactly at a successful reset or a deactivation |
| HardwareGate.SubmitsOnlyWhenOpen | 六轴机械臂/上位机ros2/src/elfin3_canfd_driver/src/elfin3_canfd_system.cpp:473-509 | A submit or start happens only with the latch clear |
| HardwareGate.StopShuts | 六轴机械臂/上位机ros2/src/elfin3_canfd_driver/src/csp_scheduler.cpp:293-336 | After an abort or a fault only a HOLD can still be decided, from any stream state |
| HardwareGate.ShutStaysShut | 六轴机械臂/上位机ros2/src/elfin3_canfd_driver/src/csp_scheduler.cpp:435-757 | Worker cycles cannot reopen it |
| HardwareGate.WriteCycleWrites | 六轴机械臂/上位机ros2/src/elfin3_canfd_driver/src/elfin3_canfd_system.cpp:443-602 | An undisturbed write cycle in closed form |
| HardwareGate.ReadCycleWatches | 六轴机械臂/上位机ros2/src/elfin3_canfd_driver/src/elfin3_canfd_system.cpp:360-435 | An undisturbed read cycle in closed form |
| HardwareGate.ClosedGateHolds | 六轴机械臂/上位机ros2/src/elfin3_canfd_driver/src/csp_scheduler.cpp:435-694 | A scheduler whose gate is closed decides no APPLY and no RESET, in any state and at any clock |
| HardwareGate.MovesOnlyIfItCan | 六轴机械臂/上位机ros2/src/elfin3_canfd_driver/src/csp_scheduler.cpp:467-684 | A decided APPLY or RESET implies the conditions on gate, status, credit and queue, whatever the clock says |
| HardwareGate.MovesIfItCan | 六轴机械臂/上位机ros2/src/elfin3_canfd_driver/src/csp_scheduler.cpp:467-684 | Under those conditions a cycle with good clocks does decide one |
| HardwareGate.Hardware.constructor | 六轴机械臂/上位机ros2/src/elfin3_canfd_driver/src/elfin3_canfd_system.cpp:268-309 | The gate starts inactive and open |
| HardwareGate.Hardware.Read | 六轴机械臂/上位机ros2/src/elfin3_canfd_driver/src/elfin3_canfd_system.cpp:339-437 | A read cycle on the scheduler object performs the specified one |
| HardwareGate.Hardware.Write | 六轴机械臂/上位机ros2/src/elfin3_canfd_driver/src/elfin3_canfd_system.cpp:443-602 | A write cycle on the scheduler object performs the specified one |
| HardwareGate.Hardware.HandleTrajectoryReset | 六轴机械臂/上位机ros2/src/elfin3_canfd_driver/src/elfin3_canfd_system.cpp:968-1103 | A reset reopens the gate exactly when the recovery succeeds |
| GateRules.GateRule | 六轴机械臂/上位机ros2/src/elfin3_canfd_driver/src/elfin3_canfd_system.cpp:339-602 | Over every run, what each section of a read, of a write and of a service makes of the gate, and which call it makes on the scheduler |
| GateScenario.ReachOngoing | 六轴机械臂/上位机ros2/src/elfin3_canfd_driver/src/elfin3_canfd_system.cpp:443-602 | From activation, read and write cycles and two statuses bring the gate into streaming with credit, for every valid configuration with a watermark above 1 |
| GateScenario.DecidesBeforeTheGate | 六轴机械臂/上位机ros2/src/elfin3_canfd_driver/src/elfin3_canfd_system.cpp:360-414 | A run in which the worker decides to move the arm after the latch was stored and before the scheduler's gate was set |
| GateScenario.DecidesAfterAFlicker | 六轴机械臂/上位机ros2/src/elfin3_canfd_driver/src/elfin3_canfd_system.cpp:712-724 | A run in which it does so after the gate was set, the bus-off flag having gone between its two loads |
| DriveSession.ControlwordsFollowDriveState | 六轴机械臂/下位机stm32/App/Src/ECAT_runtime.c:881-998 | In every state of a session all six controlwords are equal and fixed by the drive state |
| DriveSession.FailedIsAbsorbing | 六轴机械臂/下位机stm32/App/Src/ECAT_runtime.c:2361-2372 | No step of a session leaves FAILED or its 0x0000 |
| DriveSession.FailedLasts | 六轴机械臂/下位机stm32/App/Src/ECAT_runtime.c:2361-2372 | From the first FAILED state of any run on the drives stay there with 0x0000 |
| DriveSession.OperationWasRequested | 六轴机械臂/下位机stm32/App/Src/ECAT_runtime.c:1180-1313 | In every run no drive state that asks for Operation Enabled is reached without an accepted enable request |
| DriveSession.MoveNeedsPoint | 六轴机械臂/下位机stm32/App/Src/ECAT_runtime.c:2142-2321 | Only the motion handler with a staged point stages the move controlword 0x001F |
| DriveSession.EnableIsSafe | 六轴机械臂/下位机stm32/App/Src/ECAT_runtime.c:1180-1223 | Every staging of 0x000F consumes its own accepted request, follows a relatch and three passing cycles running, with every axis within one count and speed one at that moment |
| DriveSession.RelatchMeasures | 六轴机械臂/下位机stm32/App/Src/ECAT_runtime.c:1129-1177 | The relatch before it consumes the request and sets all six targets to the measured positions |
| DriveSession.BrakeWritesFollowScript | 六轴机械臂/下位机stm32/App/Src/ECAT_runtime.c:1535-2125 | The SDO writes the worker claims, also after a lost exchange has ended the cycles, are a prefix of the fixed 30-entry script: axis 1 then 2, slave 1 to 3, open, clear, execute, clear, zero |
| DriveSession.CommandedOnce | 六轴机械臂/下位机stm32/App/Src/ECAT_runtime.c:1535-2125 | In that script only the clear command repeats for an axis |
| DriveSession.CompletionIsTheSteps | 六轴机械臂/下位机stm32/App/Src/ECAT_runtime.c:1375-1460 | A completion the brake handler collects belongs to the request of its own step |
| DriveSession.ModesAreRestored | 六轴机械臂/下位机stm32/App/Src/ECAT_runtime.c:2000-2086 | From the 0x0006 delay on all six modes are 8 and the job slot is idle |
| DriveSession.RankNeverFalls | 六轴机械臂/下位机stm32/App/Src/ECAT_runtime.c:1620-2086 | No step takes axis, slave and step back while the brakes are being released |
| DriveSession.RankOnlyRises | 六轴机械臂/下位机stm32/App/Src/ECAT_runtime.c:1620-2086 | Over any stretch of a run that ends among the brakes, the brakes were never left and the rank of axis, slave and step never fell |
| DriveSession.BrakeKeeps | 六轴机械臂/下位机stm32/App/Src/ECAT_runtime.c:1535-2125 | One brake handler call keeps job, script position, modes and controlwords in step |
| DriveSession.HandleKeeps | 六轴机械臂/下位机stm32/App/Src/ECAT_runtime.c:2390-2471 | Every other handler keeps controlwords, modes and the account of enable requests |
| DriveSession.BadKeepsInv | 六轴机械臂/下位机stm32/App/Src/ECAT_runtime.c:909-998 | A lost exchange keeps them too, including the brake rollback |
| DriveSession.WriteFollowsScript | 六轴机械臂/下位机stm32/App/Src/ECAT_runtime.c:1673-1696 | Each write step requests exactly its script entry |
| DriveRules.GoodExchangeRule | 六轴机械臂/下位机stm32/App/Src/ECAT_runtime.c:1001-1313 | Over every run, what a good exchange does in each drive state past the brakes, from the statuswords, the time waited and the passing cycles: the next state, the controlwords, and every rollback by fault, by timeout and by lost status |
| DriveRules.MotionIsLeft | 六轴机械臂/下位机stm32/App/Src/ECAT_runtime.c:2188-2205 | Motion is left at the first good exchange that shows an axis out of Operation Enabled: to 0x0000 on all axes by a fault bit, otherwise to 0x0007, with the request and the counters cleared |
| DriveRules.BadExchangeRule | 六轴机械臂/下位机stm32/App/Src/ECAT_runtime.c:909-998 | Over every run, what a bad exchange does: nothing for two in a row, from the third on 0x0000 from every state past the delay, the brakes by their own rule, and the hundredth ends the session |
| BrakeRules.FeedbackIsAwaited | 六轴机械臂/下位机stm32/App/Src/ECAT_runtime.c:1698-1738 | Over every run, a feedback wait is left if and only if the two reads collected last are of the axis's first and second feedback object and both show the awaited value; any other pair keeps it |
| BrakeRules.CommandsFollowFeedback | 六轴机械臂/下位机stm32/App/Src/ECAT_runtime.c:1535-2125 | Over every run, each write of the script is claimed only after its axis has reported, in turn and on both objects, what the writes before it asked for: opened, cleared, executed, cleared |
| BrakeRules.ExecuteNeedsOpened | 六轴机械臂/下位机stm32/App/Src/ECAT_runtime.c:1535-2125 | So an execute command is claimed only after its slave and axis reported opened and later cleared |
| BrakeRules.BrakeExchangeRule | 六轴机械臂/下位机stm32/App/Src/ECAT_runtime.c:1535-2125 | Over every run, what a good exchange among the brakes does at each step: the way out of a disturbance, the commands, the reads, the ten-millisecond waits and the mode changes |
| EtherCatTask.StepKeepsCoupled | 六轴机械臂/下位机stm32/App/Src/ECAT_runtime.c:2491-2545 | With frames, holds, requests and the SDO worker between any two steps, the drive state machine and the trajectory task keep one process image and one idea of whether the drives are in motion |
| EtherCatTask.MotionAgrees | 六轴机械臂/下位机stm32/App/Src/ECAT_runtime.c:2142-2321 | The motion handler changes the image exactly as taking, staging and committing the point do, and ends the session exactly when staging failed |
| EtherCatTask.StepKeepsParts | 六轴机械臂/下位机stm32/App/Src/ECAT_runtime.c:2390-2471 | Every step of the joined task keeps the invariants of both parts |
| EtherCatTask.ConfirmedInOperation | 六轴机械臂/下位机stm32/App/Src/ECAT_runtime.c:2517-2522 | Whenever an exchange confirms a point, the image it sent held its six targets with 0x001F and mode 8 on every axis, in motion, and after an enable request accepted in this session |
| EtherCatTask.MotionStops | 六轴机械臂/下位机stm32/App/Src/ECAT_runtime.c:2188-2205 | In every run an axis seen out of Operation Enabled stops the whole task, whatever the buffer would have offered: the drives fall back as above and the buffer is emptied and on hold |
| EtherCatTask.QuickStopHolds | 六轴机械臂/下位机stm32/App/Src/ECAT_runtime.c:2164-2186 | In every run a quick stop request in motion puts 0x000B on all axes, empties the buffer and stays in motion |
| EtherCatTask.OnlyPointsMove | 六轴机械臂/下位机stm32/App/Src/ECAT_runtime.c:2305-2318 | In every run 0x001F appears on an axis only in the step that commits a staged point, with all six targets of that point |
| DriveScenario.ReachDelay | 六轴机械臂/下位机stm32/App/Src/ECAT_runtime.c:1535-2125 | From any image a run releases all six brakes by the whole thirty-write script |
| DriveScenario.MotionIsReached | 六轴机械臂/下位机stm32/App/Src/ECAT_runtime.c:1001-1313 | It goes on through the delay, 0x0006, 0x0007, an enable request, the relatch and 0x000F to motion |
| DriveScenario.ConfirmationIsReached | 六轴机械臂/下位机stm32/App/Src/ECAT_runtime.c:2491-2545 | And there a prefilled buffer's first point is sent and confirmed, so the results on the joined task are not vacuous |
| DriveRuntime.Drives.constructor | 六轴机械臂/下位机stm32/App/Src/ECAT_runtime.c:660-690 | A session starts in the axis 1 brakes with the prepared image |
| DriveRuntime.Drives.MatchAll | 六轴机械臂/下位机stm32/App/Src/ECAT_runtime.c:2840-2889 | The loop finds whether all axes match and whether any reports a fault |
| DriveRuntime.Drives.SetAllControlwords | 六轴机械臂/下位机stm32/App/Src/ECAT_runtime.c:2906-2943 | The loop sets both controlwords of every slave and nothing else |
| DriveRuntime.Drives.MayRelatch | 六轴机械臂/下位机stm32/App/Src/ECAT_runtime.c:3114-3150 | The loop finds whether the relatch conditions hold on all axes |
| DriveRuntime.Drives.RelatchAtRest | 六轴机械臂/下位机stm32/App/Src/ECAT_runtime.c:3150-3165 | The loop moves all targets to the measured positions |
| DriveRuntime.Drives.EnableCheck | 六轴机械臂/下位机stm32/App/Src/ECAT_runtime.c:3185-3241 | The loop decides the enable check |
| DriveRuntime.Drives.PlaceTargets | 六轴机械臂/下位机stm32/App/Src/ECAT_runtime.c:2260-2296 | The loop over the joint table places the point |
| DriveRuntime.Drives.FollowPositions | 六轴机械臂/下位机stm32/App/Src/ECAT_runtime.c:2248-2258 | The loop makes every target follow its position |
| DriveRuntime.Drives.ToZero | 六轴机械臂/下位机stm32/App/Src/ECAT_runtime.c:881-892 | Stages 0x0000 and enters the zero rollback |
| DriveRuntime.Drives.ToSwitchedOn | 六轴机械臂/下位机stm32/App/Src/ECAT_runtime.c:895-906 | Stages 0x0007 and enters the switched-on rollback |
| DriveRuntime.Drives.HandleWaitDelay | 六轴机械臂/下位机stm32/App/Src/ECAT_runtime.c:1001-1023 | After 2500 good cycles 0x0006 is staged if every axis is switch-on-disabled, else the session fails; before that only the count moves |
| DriveRuntime.Drives.HandleWaitReady | 六轴机械臂/下位机stm32/App/Src/ECAT_runtime.c:1026-1056 | Leaves for the next stage only with all axes ready; a fault or 1000 cycles rolls back to zero |
| DriveRuntime.Drives.HandleReadyToSwitchOn | 六轴机械臂/下位机stm32/App/Src/ECAT_runtime.c:1059-1093 | Stages 0x0007 only on a second ready reading; a fault or ten misses roll back to zero |
| DriveRuntime.Drives.HandleWaitSwitchedOn | 六轴机械臂/下位机stm32/App/Src/ECAT_runtime.c:1096-1126 | Leaves only with all axes switched on; a fault or 1000 cycles rolls back to zero |
| DriveRuntime.Drives.HandleSwitchedOn | 六轴机械臂/下位机stm32/App/Src/ECAT_runtime.c:1129-1177 | Consumes a request only while all axes are switched on, and relatches all targets or none |
| DriveRuntime.Drives.HandleWaitTargetStable | 六轴机械臂/下位机stm32/App/Src/ECAT_runtime.c:1180-1223 | Stages 0x000F on the third passing check in a row; a failed check restarts the count, a fault or 1000 cycles rolls back to zero |
| DriveRuntime.Drives.HandleWaitOperationEnabled | 六轴机械臂/下位机stm32/App/Src/ECAT_runtime.c:1226-1267 | Leaves only with all axes enabled; a fault goes to zero, 1000 cycles to switched on |
| DriveRuntime.Drives.HandleOperationEnabled | 六轴机械臂/下位机stm32/App/Src/ECAT_runtime.c:1270-1313 | Enters motion only with all axes enabled, else rolls back by fault or not |
| DriveRuntime.Drives.HandleMotion | 六轴机械臂/下位机stm32/App/Src/ECAT_runtime.c:2142-2321 | For each answer of the trajectory buffer (EtherCatTask supplies the one it gives): quick stop before everything; motion only with all axes enabled and in mode 8; a point is placed only if it was staged |
| DriveRuntime.Drives.HandleRollbackWait | 六轴机械臂/下位机stm32/App/Src/ECAT_runtime.c:2324-2358 | Back to switched on only with all axes there; a fault or 1000 cycles goes to zero and drops any request |
| DriveRuntime.Drives.ProcessSdo | 六轴机械臂/下位机stm32/App/Src/ECAT_runtime.c:1375-1460 | Submit, wait or collect, as specified on the job record |
| DriveRuntime.Drives.PrepareBrakeRollback | 六轴机械臂/下位机stm32/App/Src/ECAT_runtime.c:1478-1513 | Withdraws a job under the specified policy, never a running one |
| DriveRuntime.Drives.SetAxisMode | 六轴机械臂/下位机stm32/App/Src/ECAT_runtime.c:1315-1352 | Changes one axis's mode and nothing else |
| DriveRuntime.Drives.RollBackBrake | 六轴机械臂/下位机stm32/App/Src/ECAT_runtime.c:2094-2124 | Refuses, with the mode possibly already restored, while a job is running; else clears brake context, counters and request and goes to the zero or the switched-on rollback |
| DriveRuntime.Drives.DisturbBrake | 六轴机械臂/下位机stm32/App/Src/ECAT_runtime.c:1579-1617 | The way out when a drive leaves Switch On Disabled |
| DriveRuntime.Drives.BeginBrake | 六轴机械臂/下位机stm32/App/Src/ECAT_runtime.c:1622-1653 | Drops a finished job and starts slave 1 from a blank context, but only once the job slot is idle |
| DriveRuntime.Drives.WriteBrake | 六轴机械臂/下位机stm32/App/Src/ECAT_runtime.c:1673-1696 | Advances to the next step exactly when the write of this step came back complete, ends the session when it failed, else waits in the same step |
| DriveRuntime.Drives.ReadBrake | 六轴机械臂/下位机stm32/App/Src/ECAT_runtime.c:1698-1738 | Reads two feedback objects in turn; only both showing the expected value in one round end the step, anything else starts a new round, a failed read ends the session |
| DriveRuntime.Drives.RelatchBrake | 六轴机械臂/下位机stm32/App/Src/ECAT_runtime.c:2000-2032 | Mode 8 and target relatch of the finished axis |
| DriveRuntime.Drives.FinishBrake | 六轴机械臂/下位机stm32/App/Src/ECAT_runtime.c:2034-2086 | On to the next slave, axis or the delay |
| DriveRuntime.Drives.HandleBrakeRelease | 六轴机械臂/下位机stm32/App/Src/ECAT_runtime.c:1535-2125 | A drive out of Switch On Disabled goes to the disturbance exit before any step runs; otherwise exactly the handler of the current step runs, and an unknown step rolls back |
| DriveRuntime.Drives.Dispatch | 六轴机械臂/下位机stm32/App/Src/ECAT_runtime.c:2390-2458 | At most one handler a cycle |
| DriveRuntime.Drives.AfterGoodExchange | 六轴机械臂/下位机stm32/App/Src/ECAT_runtime.c:2390-2471 | A good exchange as specified; entering FAILED stages 0x0000 at once |
| DriveRuntime.Drives.AfterBadExchange | 六轴机械臂/下位机stm32/App/Src/ECAT_runtime.c:909-998 | A bad exchange as specified, with both limits |
| DriveRuntime.Drives.RequestEnableOperation | 六轴机械臂/下位机stm32/App/Src/ECAT_runtime.c:241-263 | A request is accepted exactly in CW07_DONE with none pending |
| DriveRuntime.PassingHasNoFault | 六轴机械臂/下位机stm32/App/Src/ECAT_runtime.c:2840-2889 | A passing enable check excludes the fault bit |
| SdoSlot.SlotServesOneRequest | 六轴机械臂/下位机stm32/App/Src/ECAT_runtime.c:1375-1460 | From submission to collection the slot serves one request, whatever the worker answers |
| SdoSlot.CompletionIsExact | 六轴机械臂/下位机stm32/App/Src/ECAT_runtime.c:1375-1460 | What the task collects from what the worker published: a read completes with just the bytes that came, a write if all four bytes of its request were taken, and everything else fails and frees the slot |
| SdoSlot.OthersNeverComplete | 六轴机械臂/下位机stm32/App/Src/ECAT_runtime.c:1375-1460 | A record of another slave, object or write value is never taken for a completion |
| SdoSlot.RecordIsKept | 六轴机械臂/下位机stm32/App/Src/ECAT_runtime.c:1375-1460 | An idle slot takes the request with four bytes, a slot in use keeps its record, and a publication leaves a write's bytes and those of a failed read alone |
| SdoSlot.WithdrawalIsSafe | 六轴机械臂/下位机stm32/App/Src/ECAT_runtime.c:1478-1513 | A rollback withdraws everything but a running job and a command the worker may have passed on |
| SdoWorker.WorkerIsUndisturbed | 六轴机械臂/下位机stm32/App/Src/ECAT.c:542-725 | Between claim and publication the context is open, never closed, cleared or reopened, and the job record never reset, over all interleavings |
| SdoWorker.OnlyTheWorkerEndsRunning | 六轴机械臂/下位机stm32/App/Src/ECAT.c:704-725 | Only the worker takes the slot out of RUNNING, and it publishes for the request it claimed |
| SdoWorker.MasterRule | 六轴机械臂/下位机stm32/App/Src/ECAT.c:287-877 | Over every run, what each critical section of either task does, and that busy is exactly the worker's claim |
| SdoWorker.CloseFollowsTheWorker | 六轴机械臂/下位机stm32/App/Src/ECAT.c:834-877 | Once the worker is idle the next error cycle closes and cleans up |
| SdoWorker.StepKeepsInv | 六轴机械臂/下位机stm32/App/Src/ECAT.c:287-331 | Initialization, error and close keep the handshake invariant |
| SdoWorker.Ecat.ClaimJob | 六轴机械臂/下位机stm32/App/Src/ECAT.c:561-590 | Claims exactly under the guard |
| SdoWorker.Ecat.PublishJob | 六轴机械臂/下位机stm32/App/Src/ECAT.c:704-725 | Publishes the result and frees the worker |
| SdoWorker.Ecat.EnterError | 六轴机械臂/下位机stm32/App/Src/ECAT.c:811-832 | Stops the mailbox and asks for the close before committing the error |
| SdoWorker.Ecat.LookAtWorker | 六轴机械臂/下位机stm32/App/Src/ECAT.c:834-855 | Closes only behind an idle worker |
| SdoWorker.Ecat.Cleanup | 六轴机械臂/下位机stm32/App/Src/ECAT.c:857-877 | Resets the runtime and ends the close |
| SdoWorker.Ecat.Init | 六轴机械臂/下位机stm32/App/Src/ECAT.c:287-331 | Initialization runs exactly when nothing is busy or pending and the state allows it |
| Snapshot.AcceptedSetsAreWhole | 六轴机械臂/下位机stm32/App/Src/ECAT_runtime.c:2590-2638 | For every interleaving at byte granularity, across the wrap of the 32-bit number, an accepted copy is exactly one published set and accepted sequences strictly increase |
| Snapshot.UndisturbedReadTakesNewest | 六轴机械臂/下位机stm32/App/Src/ECAT_runtime.c:2610-2638 | A read that is not overtaken takes the newest published set, whole and once |
| Snapshot.StepRule | 六轴机械臂/下位机stm32/App/Src/ECAT_runtime.c:2590-2638 | What each step of the two sides does: the reader gives up after three overtaken copies or with nothing new, and accepts a copy if and only if no set was published since it looked |
| Snapshot.StepKeepsInv | 六轴机械臂/下位机stm32/App/Src/ECAT_runtime.c:2959-3008 | Every step of publisher and reader keeps the buffer invariant |
| Snapshot.Snapshots.Capture | 六轴机械臂/下位机stm32/App/Src/ECAT_runtime.c:2959-3008 | A publication writes the other buffer only |
| Snapshot.Snapshots.Read | 六轴机械臂/下位机stm32/App/Src/ECAT_runtime.c:2618-2638 | A read takes the newest set once |
| RxQueue.DeliversInOrder | 六轴机械臂/下位机stm32/BSP/Src/bsp_can.c:127-144 | Frames come out in order, none altered, and a frame is dropped exactly when sixteen wait, across index wrap-around |
| RxQueue.ConsumerRule | 六轴机械臂/下位机stm32/BSP/Src/bsp_can.c:232-255 | Over every run, a look finds a frame if and only if one waits, the copy is the oldest waiting frame, and its release hands it out |
| RxQueue.CopyIsUndisturbed | 六轴机械臂/下位机stm32/BSP/Src/bsp_can.c:232-255 | The interrupt never writes the slot being copied |
| RxQueue.PendingIsExact | 六轴机械臂/下位机stm32/BSP/Src/bsp_can.c:257-261 | The wrapping index difference is the number of waiting frames |
| RxQueue.PushKeepsInv | 六轴机械臂/下位机stm32/BSP/Src/bsp_can.c:127-144 | A push keeps the ring a FIFO of at most sixteen |
| RxQueue.ReceiveQueue.constructor | 六轴机械臂/下位机stm32/BSP/Src/bsp_can.c:205-213 | The queue starts empty |
| RxQueue.ReceiveQueue.PushFromIsr | 六轴机械臂/下位机stm32/BSP/Src/bsp_can.c:127-144 | The push as specified, with its answer |
| RxQueue.ReceiveQueue.TryReceive | 六轴机械臂/下位机stm32/BSP/Src/bsp_can.c:232-255 | Takes the oldest frame, or reports empty and changes nothing |
| RxQueue.ReceiveQueue.GetRxPending | 六轴机械臂/下位机stm32/BSP/Src/bsp_can.c:257-261 | Reports the number waiting |
| FrameCrc.CorruptionDetected | 六轴机械臂/下位机stm32/App/Src/app_can.c:246-256 | Corruption confined to two adjacent bytes of a valid frame passes the check if and only if it is one pattern across the payload's end (0x89 in the last payload byte, 0xA1 in the low check byte) |
| FrameCrc.AdjacentBytesDetected | 六轴机械臂/下位机stm32/App/Src/app_can.c:128-152 | Payloads of any equal length differing only within two adjacent bytes have different CRCs |
| FrameCrc.AcrossTheEnd | 六轴机械臂/下位机stm32/App/Src/app_can.c:154-161 | The exact result where the little-endian check bytes follow the payload |
| FrameCrc.OnlyOneHole | 六轴机械臂/下位机stm32/App/Src/app_can.c:128-152 | The one non-zero byte pair that the register maps onto itself there |
| FrameCrc.SameTailKeepsDifference | 六轴机械臂/下位机stm32/App/Src/app_can.c:128-152 | A common tail never hides a difference |
| FrameCrc.CalculateCrc16 | 六轴机械臂/下位机stm32/App/Src/app_can.c:128-152 | The bitwise loops compute the CRC |
| RobotJoint.EveryAxisHasOneJoint | 六轴机械臂/下位机stm32/App/Src/robot_joint.c:5-13 | Every drive axis belongs to exactly one joint |
| RobotJoint.ReadingNeverFails | 六轴机械臂/下位机stm32/App/Src/robot_joint.c:36-62 | Raw to milli-degree always succeeds without int64 overflow |
| RobotJoint.CommandFailsOnlyFarAway | 六轴机械臂/下位机stm32/App/Src/robot_joint.c:64-90 | Milli-degree to raw never overflows int64 and succeeds if and only if the angle lies in the joint's span, given exactly per joint |
| RobotJoint.AngleRoundTrip | 六轴机械臂/下位机stm32/App/Src/robot_joint.c:36-90 | Milli-degree to raw to milli-degree is the identity on exactly the joint's span, and the others are refused |
| RobotJoint.CountRoundTrip | 六轴机械臂/下位机stm32/App/Src/robot_joint.c:36-90 | Raw to milli-degree and back returns within 18 counts |
| RobotJoint.CountRoundTripIsTight | 六轴机械臂/下位机stm32/App/Src/robot_joint.c:36-90 | Eighteen is reached |
| RobotJoint.HalfAwayFromZero | 六轴机械臂/下位机stm32/App/Src/robot_joint.c:15-24 | A half is rounded away from zero on either side |
| RobotJoint.RoundingError | 六轴机械臂/下位机stm32/App/Src/robot_joint.c:15-24 | A rounded quotient is off by at most half a unit |
| CanProtocol.FrameRoundTrip | 六轴机械臂/下位机stm32/App/Src/app_can.c:154-161 | Whatever payload is sent with its check bytes, an undamaged frame passes the check and gives the payload back |
| CanProtocol.DamagedFrameIsRejected | 六轴机械臂/下位机stm32/App/Src/app_can.c:674-700 | A sent frame damaged within two adjacent bytes is read if and only if the damage is the one pattern the check cannot see |
| CanProtocol.EncodedFrameIsRead | 六轴机械臂/下位机stm32/App/Src/app_can.c:354-490 | Every command the host encodes passes the device's field checks and is read as exactly that frame and point |
| CanProtocol.TargetSurvives | 六轴机械臂/上位机ros2/src/elfin3_canfd_driver/include/elfin3_canfd_driver/encode.hpp:36-42 | Six signed targets survive the bytes |
| CanProtocol.SignedRoundTrip | 六轴机械臂/下位机stm32/App/Src/app_can.c:73-84 | A signed 32-bit value survives the bytes |
| CanProtocol.StatusRoundTrip | 六轴机械臂/上位机ros2/src/elfin3_canfd_driver/include/elfin3_canfd_driver/decode.hpp:105-141 | Every status the device can pack decodes to the device's state, and it can pack all but out-of-range reason codes |
| CanProtocol.RefusedStatus | 六轴机械臂/上位机ros2/src/elfin3_canfd_driver/include/elfin3_canfd_driver/decode.hpp:105-115 | The host refuses a status exactly when version, state, depth, capacity, prefill or reason codes cannot be a device's |
| CanProtocol.ObservationsSurvive | 六轴机械臂/上位机ros2/src/elfin3_canfd_driver/include/elfin3_canfd_driver/decode.hpp:116-141 | Counter, reason codes, executed cycle and the valid observed sequences survive the bytes |
| CanProtocol.MalformedIsHarmless | 六轴机械臂/下位机stm32/App/Src/app_can.c:366-430 | A command failing a field check changes only the rejection record |
| SafetyLatch.SilenceIsLatched | 六轴机械臂/下位机stm32/App/Src/app_can.c:1176-1254 | After every check that finds commands or heartbeat expired, both safety requests stand, although a timeout is latched only when first reported |
| SafetyLatch.OnlyAClearReleases | 六轴机械臂/下位机stm32/App/Src/app_can.c:1271-1296 | A standing request goes away exactly by a clear with commands and host present |
| SafetyLatch.RequestRule | 六轴机械臂/下位机stm32/App/Src/app_can.c:1176-1296 | Over every run, what each event makes of the quick stop request: a check raises it if and only if commands are 20 ms silent outside a held trajectory or the host 300 ms, and changes nothing with both present |
| SafetyLatch.CheckRule | 六轴机械臂/下位机stm32/App/Src/app_can.c:1176-1254 | Over every run, what a check reports of commands and host, from the ticks of the latest frames |
| SafetyLatch.ClearAnswers | 六轴机械臂/下位机stm32/App/Src/app_can.c:1271-1296 | A clear works exactly with both sources present, and says so |
| SafetyLatch.AcceptsExactlyNewer | 六轴机械臂/下位机stm32/App/Src/app_can.c:258-281 | Within 127 ahead and 128 behind, the 8-bit filter accepts exactly the newer frames |
| SafetyLatch.Monitor.Check | 六轴机械臂/下位机stm32/App/Src/app_can.c:1176-1254 | Sets both safety requests at the first check past either timeout and not again until that source has returned; a held trajectory suspends and re-arms the command timeout only |
| SafetyLatch.Monitor.ClearSafetyRequest | 六轴机械臂/下位机stm32/App/Src/app_can.c:1271-1296 | Clears both requests together exactly when commands are not timed out and the host is online, else changes nothing |

## Left out

- SOEM, HAL, FreeRTOS, SocketCAN and ROS calls: their results are arbitrary inputs of the steps.
- Device restarts, and the start-up between two OPERATIONAL sessions: module Execution lets a new session begin at once, from any image.
- Null pointers and missing or wrongly sized process-data mappings, which make the code give up at once.
- Statistics, diagnostics publishing, logs, jitter accounting and the refill period, none of which feeds a decision modelled here.
- Unbounded counters of the host (`apply_points_sent_` and `apply_points_accepted_` are 64 bits wide there): modelled as naturals.
- Snapshot.AcceptedSetsAreWhole: stated for one OPERATIONAL session, because starting a new one sets the sequence numbers back to zero.
- The motion-control, parameter and position-feedback frames, device-status lengths, key debounce, Bus-Off restart, PDO mapping readback, jog controller, console and launch files: easier members beside the core.
- HardwareGate.LossClosesTheGate: says nothing about a decision in the window of the first read cycle, where the code can still send a point; HardwareGate.WindowExactly says exactly when.
- Sensor readiness of the ros2_control component (ages, masks, faults): inputs of a read cycle.
- Target torque and feed-forward of the motion image beyond their check and reset, which no modelled handler otherwise writes.
