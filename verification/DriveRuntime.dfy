// The drive state machine of the EtherCAT runtime: brake release, the power-drive
// sequence of CiA 402 (controlwords 0x0006, 0x0007, 0x000F), motion, and every rollback.
//
// `Runtime` and the functions on it are the specification, one function a handler. The
// class `DriveRuntime` is the runtime as the firmware keeps it, fields and output image
// updated in place, each method proved to perform its function. All slaves are present
// and correctly mapped.
module DriveRuntime {
  import opened Words
  import RobotJoint
  import RobotTrajectory
  import opened Pdo
  import opened SdoSlot

  datatype Drive =
    | DISABLED
    | AXIS1_BRAKE_RELEASE
    | AXIS2_BRAKE_RELEASE
    | CW06_WAIT_DELAY
    | CW06_WAIT_READY
    | CW06_DONE
    | CW06_ROLLBACK_ZERO
    | CW06_FAILED
    | CW07_WAIT_SWITCHED_ON
    | CW07_DONE
    | CW0F_WAIT_TARGET_STABLE
    | CW0F_WAIT_OPERATION_ENABLED
    | CW0F_DONE
    | CW0F_ROLLBACK_CW07
    | TEST

  const DELAY_CYCLES := 2500
  const STATE_TIMEOUT := 1000
  const LOSS_CYCLES := 10
  const STABLE_CYCLES := 3
  const POSITION_TOLERANCE := 1
  const VELOCITY_TOLERANCE := 1
  const WKC_ROLLBACK_LIMIT := 3
  const WKC_FAULT_LIMIT := 100
  const BRAKE_DELAY_US := 10000

  const STEP_IDLE := 0
  const STEP_SET_MODE_11 := 1
  const STEP_WRITE_OPEN := 2
  const STEP_WAIT_OPEN_FEEDBACK := 3
  const STEP_WAIT_OPEN_10_MS := 4
  const STEP_WRITE_OPEN_CLEAR := 5
  const STEP_WAIT_OPEN_CLEARED := 6
  const STEP_WRITE_EXECUTE := 7
  const STEP_WAIT_EXECUTE_FEEDBACK := 8
  const STEP_WAIT_10_MS := 9
  const STEP_WRITE_CLEAR := 10
  const STEP_WAIT_CLEARED := 11
  const STEP_WRITE_ZERO := 12
  const STEP_RELATCH := 13
  const STEP_DONE := 14

  const COMMAND_OPEN: U32 := 0x1100_0000
  const COMMAND_EXECUTE: U32 := 0x2200_0000
  const COMMAND_CLEAR: U32 := 0x3300_0000
  const FEEDBACK_OPENED: U32 := 0x0030_0000
  const FEEDBACK_EXECUTED: U32 := 0x0040_0000

  const MODE_BRAKE := 11

  datatype Brake = Brake(step: nat, retry: nat, slave: nat, feedback1: U32, feedback2: U32, waitStart: U32)

  const NO_BRAKE := Brake(STEP_IDLE, 0, 0, 0, 0, 0)

  datatype Runtime = Runtime(
    drive: Drive, stateCycles: nat, stableCycles: nat, enableRequest: bool,
    brake: Brake, job: Job, badWkc: nat, image: Image)

  // ---------------------------------------------------------------- the handlers

  function RollbackToZero(r: Runtime): Runtime {
    r.(image := WithControlword(r.image, 0x0000), drive := CW06_ROLLBACK_ZERO)
  }

  function RollbackToSwitchedOn(r: Runtime): Runtime {
    r.(image := WithControlword(r.image, 0x0007), drive := CW0F_ROLLBACK_CW07)
  }

  function WaitDelay(r: Runtime, inputs: Inputs): Runtime {
    if r.stateCycles + 1 < DELAY_CYCLES then r.(stateCycles := r.stateCycles + 1)
    else if AllMatch(inputs, 0x004F, 0x0040) then
      r.(stateCycles := 0, image := WithControlword(r.image, 0x0006), drive := CW06_WAIT_READY)
    else r.(stateCycles := 0, drive := CW06_FAILED)
  }

  // Count a cycle without the awaited state; a fault or the limit rolls back to zero.
  function Missed(r: Runtime, inputs: Inputs, limit: nat): Runtime {
    if FaultFound(inputs) || r.stateCycles + 1 >= limit then RollbackToZero(r.(stateCycles := 0))
    else r.(stateCycles := r.stateCycles + 1)
  }

  function WaitReady(r: Runtime, inputs: Inputs): Runtime {
    if AllMatch(inputs, 0x006F, 0x0021) then r.(stateCycles := 0, drive := CW06_DONE)
    else Missed(r, inputs, STATE_TIMEOUT)
  }

  function ReadyToSwitchOn(r: Runtime, inputs: Inputs): Runtime {
    if AllMatch(inputs, 0x006F, 0x0021) then
      r.(stateCycles := 0, image := WithControlword(r.image, 0x0007), drive := CW07_WAIT_SWITCHED_ON)
    else Missed(r, inputs, LOSS_CYCLES)
  }

  function WaitSwitchedOn(r: Runtime, inputs: Inputs): Runtime {
    if AllMatch(inputs, 0x006F, 0x0023) then r.(stateCycles := 0, drive := CW07_DONE)
    else Missed(r, inputs, STATE_TIMEOUT)
  }

  predicate CanRelatch(image: Image, inputs: Inputs) {
    forall k :: 0 <= k < AXIS_COUNT ==>
      && image[k].controlword == 0x0007 && image[k].mode == MODE_CSP
      && inputs[k].modeDisplay == MODE_CSP && StatusMatches(inputs[k], 0x006F, 0x0023)
  }

  // Targets to the measured positions, torque and feed-forward to zero.
  function RelatchedAtRest(image: Image, inputs: Inputs): Image {
    seq(AXIS_COUNT, k requires 0 <= k < AXIS_COUNT =>
      image[k].(target := inputs[k].position, torque := 0, feedForward := 0))
  }

  function SwitchedOn(r: Runtime, inputs: Inputs): Runtime {
    if !AllMatch(inputs, 0x006F, 0x0023) then Missed(r.(enableRequest := false), inputs, LOSS_CYCLES)
    else if !r.enableRequest then r.(stateCycles := 0)
    else
      var taken := r.(stateCycles := 0, enableRequest := false, stableCycles := 0);
      if CanRelatch(r.image, inputs) then
        taken.(image := RelatchedAtRest(r.image, inputs), drive := CW0F_WAIT_TARGET_STABLE)
      else RollbackToZero(taken)
  }

  // The conditions of one axis for leaving Switched On.
  predicate AxisAtRest(axis: AxisOut, measured: AxisIn) {
    && axis.controlword == 0x0007 && axis.mode == MODE_CSP && measured.modeDisplay == MODE_CSP
    && measured.errorCode == 0 && axis.torque == 0 && axis.feedForward == 0
    && -POSITION_TOLERANCE <= axis.target - measured.position <= POSITION_TOLERANCE
    && -VELOCITY_TOLERANCE <= measured.velocity <= VELOCITY_TOLERANCE
  }

  predicate PassesEnableCheck(image: Image, inputs: Inputs) {
    && AllMatch(inputs, 0x006F, 0x0023)
    && forall k :: 0 <= k < AXIS_COUNT ==> AxisAtRest(image[k], inputs[k])
  }

  function WaitTargetStable(r: Runtime, inputs: Inputs): Runtime {
    var passes := PassesEnableCheck(r.image, inputs);
    if passes && r.stableCycles + 1 >= STABLE_CYCLES then
      r.(stateCycles := 0, stableCycles := 0, image := WithControlword(r.image, 0x000F),
         drive := CW0F_WAIT_OPERATION_ENABLED)
    else if FaultFound(inputs) || r.stateCycles + 1 >= STATE_TIMEOUT then
      RollbackToZero(r.(stateCycles := 0, stableCycles := 0))
    else r.(stateCycles := r.stateCycles + 1, stableCycles := if passes then r.stableCycles + 1 else 0)
  }

  function WaitOperationEnabled(r: Runtime, inputs: Inputs): Runtime {
    if AllMatch(inputs, 0x006F, 0x0027) then r.(stateCycles := 0, stableCycles := 0, drive := CW0F_DONE)
    else if FaultFound(inputs) then RollbackToZero(r.(stateCycles := 0, stableCycles := 0))
    else if r.stateCycles + 1 >= STATE_TIMEOUT then RollbackToSwitchedOn(r.(stateCycles := 0, stableCycles := 0))
    else r.(stateCycles := r.stateCycles + 1)
  }

  // Operation Enabled is lost: a fault goes to zero, anything else back to Switched On.
  function OperationLost(r: Runtime, inputs: Inputs): Runtime {
    var cleared := r.(stateCycles := 0, stableCycles := 0, enableRequest := false);
    if FaultFound(inputs) then RollbackToZero(cleared) else RollbackToSwitchedOn(cleared)
  }

  function OperationEnabled(r: Runtime, inputs: Inputs): Runtime {
    if AllMatch(inputs, 0x006F, 0x0027) then r.(stateCycles := 0, stableCycles := 0, drive := TEST)
    else OperationLost(r, inputs)
  }

  function RollbackWait(r: Runtime, inputs: Inputs): Runtime {
    if AllMatch(inputs, 0x006F, 0x0023) then
      r.(stateCycles := 0, stableCycles := 0, enableRequest := false, drive := CW07_DONE)
    else if FaultFound(inputs) || r.stateCycles + 1 >= STATE_TIMEOUT then
      RollbackToZero(r.(stateCycles := 0, stableCycles := 0, enableRequest := false))
    else r.(stateCycles := r.stateCycles + 1)
  }

  // What the trajectory buffer and the safety latch answer in one TEST cycle.
  datatype Motion = QuickStop | Point(target: RobotTrajectory.Target, staged: bool) | KeepTargets | FollowMeasured

  predicate ModesAreCsp(image: Image, inputs: Inputs) {
    forall k :: 0 <= k < AXIS_COUNT ==> image[k].mode == MODE_CSP && inputs[k].modeDisplay == MODE_CSP
  }

  // The second component is false when the exchange is reported lost, which ends the session.
  function HandleTest(r: Runtime, inputs: Inputs, motion: Motion): (Runtime, bool) {
    if motion.QuickStop? then (r.(image := WithControlword(r.image, CONTROLWORD_QUICK_STOP)), true)
    else if !AllMatch(inputs, 0x006F, 0x0027) then (OperationLost(r, inputs), true)
    else if !ModesAreCsp(r.image, inputs) then (r, false)
    else
      match motion
      case Point(target, staged) => if staged then (r.(image := PlacePoint(r.image, target)), true) else (r, false)
      case KeepTargets => (r, true)
      case _ => (r.(image := Relatched(r.image, inputs)), true)
  }

  // ------------------------------------------------------------------- the brakes

  function CommandIndex(axis: nat): nat { if axis == 1 then 0x3023 else 0x3033 }

  function FeedbackIndex(axis: nat, retry: nat): nat {
    if axis == 1 then (if retry == 0 then 0x2023 else 0x2024) else (if retry == 0 then 0x2033 else 0x2034)
  }

  predicate IsWriteStep(step: nat) {
    step == STEP_WRITE_OPEN || step == STEP_WRITE_OPEN_CLEAR || step == STEP_WRITE_EXECUTE ||
    step == STEP_WRITE_CLEAR || step == STEP_WRITE_ZERO
  }

  predicate IsReadStep(step: nat) {
    step == STEP_WAIT_OPEN_FEEDBACK || step == STEP_WAIT_OPEN_CLEARED ||
    step == STEP_WAIT_EXECUTE_FEEDBACK || step == STEP_WAIT_CLEARED
  }

  function StepCommand(step: nat): U32 {
    if step == STEP_WRITE_OPEN then COMMAND_OPEN
    else if step == STEP_WRITE_EXECUTE then COMMAND_EXECUTE
    else if step == STEP_WRITE_ZERO then 0
    else COMMAND_CLEAR
  }

  function StepFeedback(step: nat): U32 {
    if step == STEP_WAIT_OPEN_FEEDBACK then FEEDBACK_OPENED
    else if step == STEP_WAIT_EXECUTE_FEEDBACK then FEEDBACK_EXECUTED
    else 0
  }

  function StepRequest(axis: nat, b: Brake): Request {
    if IsWriteStep(b.step) then Request(true, b.slave, CommandIndex(axis), StepCommand(b.step))
    else Request(false, b.slave, FeedbackIndex(axis, b.retry), 0)
  }

  // Once a command may have been executed and until its feedback is cleared there is no
  // way back.
  predicate Committed(step: nat) { STEP_WRITE_OPEN < step <= STEP_RELATCH }

  predicate CommandMayBePending(step: nat) { step == STEP_WRITE_OPEN || step == STEP_WRITE_EXECUTE }

  predicate IsSlave(slave: nat) { 1 <= slave <= 3 }

  function WithMode(image: Image, k: nat, mode: int): Image
    requires k < AXIS_COUNT
  {
    image[k := image[k].(mode := mode)]
  }

  function BrakeRollback(r: Runtime, axis: nat, toZero: bool, restoreMode: bool): (Runtime, bool)
    requires 1 <= axis <= 2
  {
    var image := if restoreMode && IsSlave(r.brake.slave)
                 then WithMode(r.image, Slot(r.brake.slave, axis), MODE_CSP) else r.image;
    var (job, idle) := Withdrawn(r.job, false);
    if !idle then (r.(image := image, job := job), false)
    else
      var cleared := r.(image := image, job := job, brake := NO_BRAKE,
                        stateCycles := 0, stableCycles := 0, enableRequest := false);
      (if toZero then RollbackToZero(cleared) else RollbackToSwitchedOn(cleared), true)
  }

  // A drive left Switch On Disabled during the brake sequence.
  function BrakeDisturbed(r: Runtime, axis: nat): (Runtime, bool)
    requires 1 <= axis <= 2
  {
    if Committed(r.brake.step) then (r, false)
    else
      var (job, idle) := Withdrawn(r.job, CommandMayBePending(r.brake.step));
      if !idle then (r.(job := job), false)
      else BrakeRollback(r.(job := job), axis, true, r.brake.step >= STEP_SET_MODE_11)
  }

  function BrakeBegin(r: Runtime): Runtime {
    var job := if r.job.state.Done? then r.job.(state := JobIdle) else r.job;
    if !job.state.JobIdle? then r.(job := job)
    else r.(job := job, brake := Brake(STEP_SET_MODE_11, 0, 1, 0, 0, 0))
  }

  function BrakeWrite(r: Runtime, axis: nat): (Runtime, bool) {
    var b := r.brake;
    var (job, answer) := Process(r.job, StepRequest(axis, b));
    match answer
    case Wait => (r.(job := job), true)
    case Failed => (r.(job := job), false)
    case Complete(_) =>
      if b.step == STEP_WRITE_ZERO then (r.(job := job, brake := b.(step := STEP_RELATCH)), true)
      else (r.(job := job, stateCycles := 0,
               brake := b.(step := b.step + 1, retry := 0, feedback1 := 0, feedback2 := 0)), true)
  }

  // Two feedback objects are read in turn; only both together end the step.
  function BrakeRead(r: Runtime, axis: nat, nowUs: U32): (Runtime, bool) {
    var b := r.brake;
    var (job, answer) := Process(r.job, StepRequest(axis, b));
    match answer
    case Wait => (r.(job := job), true)
    case Failed => (r.(job := job), false)
    case Complete(value) =>
      if b.retry == 0 then (r.(job := job, brake := b.(feedback1 := value, retry := 1)), true)
      else
        var read := b.(feedback2 := value, retry := 0);
        if b.feedback1 == StepFeedback(b.step) && value == StepFeedback(b.step) then
          var timed := b.step == STEP_WAIT_OPEN_FEEDBACK || b.step == STEP_WAIT_EXECUTE_FEEDBACK;
          (r.(job := job, stateCycles := 0,
              brake := read.(step := b.step + 1, waitStart := if timed then nowUs else b.waitStart)), true)
        else (r.(job := job, brake := read), true)
  }

  function BrakeRelatch(r: Runtime, axis: nat, inputs: Inputs): (Runtime, bool)
    requires 1 <= axis <= 2
  {
    if !IsSlave(r.brake.slave) then (r, false)
    else
      var k := Slot(r.brake.slave, axis);
      (r.(image := r.image[k := r.image[k].(target := inputs[k].position, mode := MODE_CSP)],
          stateCycles := 0, brake := r.brake.(step := STEP_DONE)), true)
  }

  // The slave's mode 8 has gone out: on to the next slave, axis or the 0x0006 delay.
  function BrakeFinish(r: Runtime, axis: nat, inputs: Inputs): Runtime
    requires 1 <= axis <= 2 && IsSlave(r.brake.slave)
  {
    if !r.job.state.JobIdle? then r
    else
      var k := Slot(r.brake.slave, axis);
      var latched := r.(image := r.image[k := r.image[k].(target := inputs[k].position)], stateCycles := 0);
      if r.brake.slave < 3 then latched.(brake := Brake(STEP_SET_MODE_11, 0, r.brake.slave + 1, 0, 0, 0))
      else latched.(brake := NO_BRAKE, stableCycles := 0,
                    drive := if axis == 1 then AXIS2_BRAKE_RELEASE else CW06_WAIT_DELAY)
  }

  function HandleBrake(r: Runtime, axis: nat, inputs: Inputs, nowUs: U32): (Runtime, bool)
    requires 1 <= axis <= 2
  {
    var step := r.brake.step;
    if !AllMatch(inputs, 0x004F, 0x0040) then BrakeDisturbed(r, axis)
    else if step == STEP_IDLE then (BrakeBegin(r), true)
    else if step == STEP_SET_MODE_11 then
      if !IsSlave(r.brake.slave) then (r, false)
      else (r.(image := WithMode(r.image, Slot(r.brake.slave, axis), MODE_BRAKE), stateCycles := 0,
               brake := r.brake.(retry := 0, step := STEP_WRITE_OPEN)), true)
    else if IsWriteStep(step) then BrakeWrite(r, axis)
    else if IsReadStep(step) then BrakeRead(r, axis, nowUs)
    else if step == STEP_WAIT_OPEN_10_MS || step == STEP_WAIT_10_MS then
      (if Sub32(nowUs, r.brake.waitStart) >= BRAKE_DELAY_US then r.(brake := r.brake.(step := step + 1)) else r, true)
    else if step == STEP_RELATCH then BrakeRelatch(r, axis, inputs)
    else if step == STEP_DONE then
      if IsSlave(r.brake.slave) then (BrakeFinish(r, axis, inputs), true) else (r, false)
    else BrakeRollback(r, axis, false, true)
  }

  // --------------------------------------------------------------------- one cycle

  function Handle(r: Runtime, inputs: Inputs, nowUs: U32, motion: Motion): (Runtime, bool) {
    match r.drive
    case AXIS1_BRAKE_RELEASE => HandleBrake(r, 1, inputs, nowUs)
    case AXIS2_BRAKE_RELEASE => HandleBrake(r, 2, inputs, nowUs)
    case CW06_WAIT_DELAY => (WaitDelay(r, inputs), true)
    case CW06_WAIT_READY => (WaitReady(r, inputs), true)
    case CW06_DONE => (ReadyToSwitchOn(r, inputs), true)
    case CW07_WAIT_SWITCHED_ON => (WaitSwitchedOn(r, inputs), true)
    case CW07_DONE => (SwitchedOn(r, inputs), true)
    case CW0F_WAIT_TARGET_STABLE => (WaitTargetStable(r, inputs), true)
    case CW0F_WAIT_OPERATION_ENABLED => (WaitOperationEnabled(r, inputs), true)
    case CW0F_DONE => (OperationEnabled(r, inputs), true)
    case TEST => HandleTest(r, inputs, motion)
    case CW0F_ROLLBACK_CW07 => (RollbackWait(r, inputs), true)
    case CW06_ROLLBACK_ZERO => (r.(drive := CW06_FAILED), true)
    case _ => (r, true)
  }

  // At most one handler a good exchange; entering FAILED stages 0x0000 at once.
  function GoodCycle(r: Runtime, inputs: Inputs, nowUs: U32, motion: Motion): (Runtime, bool) {
    var (handled, ok) := Handle(r.(badWkc := 0), inputs, nowUs, motion);
    if ok && handled.drive == CW06_FAILED
    then (handled.(image := WithControlword(handled.image, 0x0000)), true)
    else (handled, ok)
  }

  predicate IsBrake(d: Drive) { d == AXIS1_BRAKE_RELEASE || d == AXIS2_BRAKE_RELEASE }

  predicate RollsBackOnLoss(d: Drive) {
    d != DISABLED && d != CW06_WAIT_DELAY && d != CW06_ROLLBACK_ZERO && d != CW06_FAILED
  }

  function AxisOf(d: Drive): nat { if d == AXIS1_BRAKE_RELEASE then 1 else 2 }

  function LossInBrake(r: Runtime): (Runtime, bool) {
    if Committed(r.brake.step) then (r, false)
    else
      var (job, idle) := Withdrawn(r.job, CommandMayBePending(r.brake.step));
      if !idle then (r.(job := job), false)
      else (RollbackToZero(r.(job := job, brake := NO_BRAKE,
                              image := if IsSlave(r.brake.slave)
                                       then WithMode(r.image, Slot(r.brake.slave, AxisOf(r.drive)), MODE_CSP)
                                       else r.image)), true)
  }

  function BadCycle(r: Runtime): (Runtime, bool) {
    var bad := r.(badWkc := r.badWkc + 1);
    if bad.badWkc < WKC_ROLLBACK_LIMIT then (bad, true)
    else
      var cleared := bad.(stateCycles := 0, stableCycles := 0, enableRequest := false);
      var (after, ok) := if IsBrake(r.drive) then LossInBrake(cleared)
                         else if RollsBackOnLoss(r.drive) then (RollbackToZero(cleared), true)
                         else if r.drive == CW06_WAIT_DELAY then (bad.(stateCycles := 0), true)
                         else (bad, true);
      (after, ok && bad.badWkc < WKC_FAULT_LIMIT)
  }

  function RequestEnable(r: Runtime): (Runtime, bool) {
    if r.drive == CW07_DONE && !r.enableRequest then (r.(enableRequest := true), true) else (r, false)
  }

  // A new OPERATIONAL session: modes and targets are whatever SAFE-OP prepared.
  function BeginSession(image: Image): Runtime {
    Runtime(AXIS1_BRAKE_RELEASE, 0, 0, false, NO_BRAKE, BLANK, 0, image)
  }

  // ------------------------------------------------------------------- the object

  class Drives {
    var drive: Drive
    var stateCycles: nat
    var stableCycles: nat
    var enableRequest: bool
    var brake: Brake
    var job: Job
    var badWkc: nat
    const outputs: array<AxisOut>

    ghost predicate Valid() { outputs.Length == AXIS_COUNT }

    ghost function OutputImage(): Image
      reads outputs
      requires Valid()
    {
      outputs[..]
    }

    ghost function Abs(): Runtime
      reads this, outputs
      requires Valid()
    {
      Runtime(drive, stateCycles, stableCycles, enableRequest, brake, job, badWkc, OutputImage())
    }

    constructor (prepared: Image)
      ensures Valid() && fresh(outputs) && Abs() == BeginSession(prepared)
    {
      drive, stateCycles, stableCycles := AXIS1_BRAKE_RELEASE, 0, 0;
      enableRequest, brake, job, badWkc := false, NO_BRAKE, BLANK, 0;
      outputs := new AxisOut[AXIS_COUNT](k requires 0 <= k < AXIS_COUNT => prepared[k]);
    }

    // ---------------------------------------------------- loops over the slaves

    method MatchAll(inputs: Inputs, mask: bv16, value: bv16) returns (all: bool, fault: bool)
      ensures all == AllMatch(inputs, mask, value) && fault == FaultFound(inputs)
    {
      all, fault := true, false;
      for s := 0 to 3
        invariant all == forall k :: 0 <= k < 2 * s ==> StatusMatches(inputs[k], mask, value)
        invariant fault == exists k :: 0 <= k < 2 * s && HasFault(inputs[k])
      {
        if HasFault(inputs[2 * s]) || HasFault(inputs[2 * s + 1]) {
          fault := true;
        }
        if !StatusMatches(inputs[2 * s], mask, value) || !StatusMatches(inputs[2 * s + 1], mask, value) {
          all := false;
        }
      }
    }

    method SetAllControlwords(controlword: U16)
      requires Valid()
      modifies outputs
      ensures OutputImage() == WithControlword(old(OutputImage()), controlword)
    {
      for s := 0 to 3
        invariant forall k :: 0 <= k < 2 * s ==> outputs[k] == old(outputs[k]).(controlword := controlword)
        invariant forall k :: 2 * s <= k < AXIS_COUNT ==> outputs[k] == old(outputs[k])
      {
        outputs[2 * s] := outputs[2 * s].(controlword := controlword);
        outputs[2 * s + 1] := outputs[2 * s + 1].(controlword := controlword);
      }
    }

    method MayRelatch(inputs: Inputs) returns (may: bool)
      requires Valid()
      ensures may == CanRelatch(OutputImage(), inputs)
    {
      may := true;
      for k := 0 to AXIS_COUNT
        invariant may == forall i :: 0 <= i < k ==>
          && outputs[i].controlword == 0x0007 && outputs[i].mode == MODE_CSP
          && inputs[i].modeDisplay == MODE_CSP && StatusMatches(inputs[i], 0x006F, 0x0023)
      {
        if outputs[k].controlword != 0x0007 || outputs[k].mode != MODE_CSP ||
           inputs[k].modeDisplay != MODE_CSP || !StatusMatches(inputs[k], 0x006F, 0x0023)
        {
          may := false;
        }
      }
    }

    method RelatchAtRest(inputs: Inputs)
      requires Valid()
      modifies outputs
      ensures OutputImage() == RelatchedAtRest(old(OutputImage()), inputs)
    {
      for k := 0 to AXIS_COUNT
        invariant forall i :: 0 <= i < k ==>
          outputs[i] == old(outputs[i]).(target := inputs[i].position, torque := 0, feedForward := 0)
        invariant forall i :: k <= i < AXIS_COUNT ==> outputs[i] == old(outputs[i])
      {
        outputs[k] := outputs[k].(target := inputs[k].position, torque := 0, feedForward := 0);
      }
    }

    method EnableCheck(inputs: Inputs) returns (passes: bool, fault: bool)
      requires Valid()
      ensures passes == PassesEnableCheck(OutputImage(), inputs) && fault == FaultFound(inputs)
    {
      passes, fault := MatchAll(inputs, 0x006F, 0x0023);
      for k := 0 to AXIS_COUNT
        invariant passes == (AllMatch(inputs, 0x006F, 0x0023) &&
                             forall i :: 0 <= i < k ==> AxisAtRest(outputs[i], inputs[i]))
      {
        if !AxisAtRest(outputs[k], inputs[k]) {
          passes := false;
        }
      }
    }

    // The joints' targets to their slave and axis, through the joint table.
    method PlaceTargets(target: RobotTrajectory.Target)
      requires Valid()
      modifies outputs
      ensures OutputImage() == PlacePoint(old(OutputImage()), target)
    {
      for j := 0 to RobotTrajectory.JOINT_COUNT
        invariant forall k :: 0 <= k < AXIS_COUNT ==>
          outputs[k] == if SlotJoint(k) < j
                        then old(outputs[k]).(controlword := CONTROLWORD_MOVE, target := target[SlotJoint(k)])
                        else old(outputs[k])
      {
        var config := RobotJoint.TABLE[j];
        var k := Slot(config.slave, config.axis);
        SlotsAndJoints(j);
        outputs[k] := outputs[k].(controlword := CONTROLWORD_MOVE, target := target[j]);
      }
    }

    method FollowPositions(inputs: Inputs)
      requires Valid()
      modifies outputs
      ensures OutputImage() == Relatched(old(OutputImage()), inputs)
    {
      for k := 0 to AXIS_COUNT
        invariant forall i :: 0 <= i < k ==> outputs[i] == old(outputs[i]).(target := inputs[i].position)
        invariant forall i :: k <= i < AXIS_COUNT ==> outputs[i] == old(outputs[i])
      {
        outputs[k] := outputs[k].(target := inputs[k].position);
      }
    }

    // ------------------------------------------------------------- the handlers

    method ToZero()
      requires Valid()
      modifies this`drive, outputs
      ensures Abs() == RollbackToZero(old(Abs()))
    {
      hide WithControlword;
      SetAllControlwords(0x0000);
      drive := CW06_ROLLBACK_ZERO;
    }

    method ToSwitchedOn()
      requires Valid()
      modifies this`drive, outputs
      ensures Abs() == RollbackToSwitchedOn(old(Abs()))
    {
      hide WithControlword;
      SetAllControlwords(0x0007);
      drive := CW0F_ROLLBACK_CW07;
    }

    method HandleWaitDelay(inputs: Inputs)
      requires Valid()
      modifies this`drive, this`stateCycles, outputs
      ensures Abs() == WaitDelay(old(Abs()), inputs)
    {
      hide AllMatch, FaultFound, WithControlword;
      stateCycles := stateCycles + 1;
      if stateCycles >= DELAY_CYCLES {
        stateCycles := 0;
        var ready, fault := MatchAll(inputs, 0x004F, 0x0040);
        if ready {
          SetAllControlwords(0x0006);
          drive := CW06_WAIT_READY;
        } else {
          drive := CW06_FAILED;
        }
      }
    }

    method HandleMissed(fault: bool, limit: nat, ghost inputs: Inputs)
      requires Valid() && fault == FaultFound(inputs)
      modifies this`drive, this`stateCycles, outputs
      ensures Abs() == Missed(old(Abs()), inputs, limit)
    {
      hide FaultFound, WithControlword;
      stateCycles := stateCycles + 1;
      if fault || stateCycles >= limit {
        stateCycles := 0;
        ToZero();
      }
    }

    method HandleWaitReady(inputs: Inputs)
      requires Valid()
      modifies this`drive, this`stateCycles, outputs
      ensures Abs() == WaitReady(old(Abs()), inputs)
    {
      hide AllMatch, FaultFound, Missed;
      var all, fault := MatchAll(inputs, 0x006F, 0x0021);
      if all {
        stateCycles, drive := 0, CW06_DONE;
      } else {
        HandleMissed(fault, STATE_TIMEOUT, inputs);
      }
    }

    method HandleReadyToSwitchOn(inputs: Inputs)
      requires Valid()
      modifies this`drive, this`stateCycles, outputs
      ensures Abs() == ReadyToSwitchOn(old(Abs()), inputs)
    {
      hide AllMatch, FaultFound, Missed, WithControlword;
      var all, fault := MatchAll(inputs, 0x006F, 0x0021);
      if all {
        stateCycles := 0;
        SetAllControlwords(0x0007);
        drive := CW07_WAIT_SWITCHED_ON;
      } else {
        HandleMissed(fault, LOSS_CYCLES, inputs);
      }
    }

    method HandleWaitSwitchedOn(inputs: Inputs)
      requires Valid()
      modifies this`drive, this`stateCycles, outputs
      ensures Abs() == WaitSwitchedOn(old(Abs()), inputs)
    {
      hide AllMatch, FaultFound, Missed;
      var all, fault := MatchAll(inputs, 0x006F, 0x0023);
      if all {
        stateCycles, drive := 0, CW07_DONE;
      } else {
        HandleMissed(fault, STATE_TIMEOUT, inputs);
      }
    }

    method HandleSwitchedOn(inputs: Inputs)
      requires Valid()
      modifies this`drive, this`stateCycles, this`stableCycles, this`enableRequest, outputs
      ensures Abs() == SwitchedOn(old(Abs()), inputs)
    {
      hide AllMatch, FaultFound, Missed, WithControlword, CanRelatch, RelatchedAtRest;
      var all, fault := MatchAll(inputs, 0x006F, 0x0023);
      if all {
        stateCycles := 0;
        if enableRequest {
          enableRequest, stableCycles := false, 0;
          var may := MayRelatch(inputs);
          if may {
            RelatchAtRest(inputs);
            drive := CW0F_WAIT_TARGET_STABLE;
          } else {
            ToZero();
          }
        }
      } else {
        enableRequest := false;
        HandleMissed(fault, LOSS_CYCLES, inputs);
      }
    }

    method HandleWaitTargetStable(inputs: Inputs)
      requires Valid()
      modifies this`drive, this`stateCycles, this`stableCycles, outputs
      ensures Abs() == WaitTargetStable(old(Abs()), inputs)
    {
      if PassesEnableCheck(OutputImage(), inputs) {
        PassingHasNoFault(OutputImage(), inputs);
      }
      hide FaultFound, WithControlword, PassesEnableCheck;
      stateCycles := stateCycles + 1;
      var passes, fault := EnableCheck(inputs);
      if passes {
        stableCycles := stableCycles + 1;
        if stableCycles >= STABLE_CYCLES {
          stateCycles, stableCycles := 0, 0;
          SetAllControlwords(0x000F);
          drive := CW0F_WAIT_OPERATION_ENABLED;
        }
      } else {
        stableCycles := 0;
      }
      if fault || stateCycles >= STATE_TIMEOUT {
        stateCycles, stableCycles := 0, 0;
        ToZero();
      }
    }

    method HandleWaitOperationEnabled(inputs: Inputs)
      requires Valid()
      modifies this`drive, this`stateCycles, this`stableCycles, outputs
      ensures Abs() == WaitOperationEnabled(old(Abs()), inputs)
    {
      hide AllMatch, FaultFound, WithControlword;
      var all, fault := MatchAll(inputs, 0x006F, 0x0027);
      if all {
        stateCycles, stableCycles, drive := 0, 0, CW0F_DONE;
      } else {
        stateCycles := stateCycles + 1;
        if fault {
          stateCycles, stableCycles := 0, 0;
          ToZero();
        } else if stateCycles >= STATE_TIMEOUT {
          stateCycles, stableCycles := 0, 0;
          ToSwitchedOn();
        }
      }
    }

    method HandleOperationLost(fault: bool, ghost inputs: Inputs)
      requires Valid() && fault == FaultFound(inputs)
      modifies this`drive, this`stateCycles, this`stableCycles, this`enableRequest, outputs
      ensures Abs() == OperationLost(old(Abs()), inputs)
    {
      hide FaultFound, WithControlword;
      stateCycles, stableCycles, enableRequest := 0, 0, false;
      if fault {
        ToZero();
      } else {
        ToSwitchedOn();
      }
    }

    method HandleOperationEnabled(inputs: Inputs)
      requires Valid()
      modifies this`drive, this`stateCycles, this`stableCycles, this`enableRequest, outputs
      ensures Abs() == OperationEnabled(old(Abs()), inputs)
    {
      hide AllMatch, FaultFound, OperationLost;
      var all, fault := MatchAll(inputs, 0x006F, 0x0027);
      if all {
        stateCycles, stableCycles, drive := 0, 0, TEST;
      } else {
        HandleOperationLost(fault, inputs);
      }
    }

    method HandleRollbackWait(inputs: Inputs)
      requires Valid()
      modifies this`drive, this`stateCycles, this`stableCycles, this`enableRequest, outputs
      ensures Abs() == RollbackWait(old(Abs()), inputs)
    {
      hide AllMatch, FaultFound, WithControlword;
      var all, fault := MatchAll(inputs, 0x006F, 0x0023);
      if all {
        stateCycles, stableCycles, enableRequest, drive := 0, 0, false, CW07_DONE;
      } else {
        stateCycles := stateCycles + 1;
        if fault || stateCycles >= STATE_TIMEOUT {
          stateCycles, stableCycles, enableRequest := 0, 0, false;
          ToZero();
        }
      }
    }

    method HandleMotion(inputs: Inputs, motion: Motion) returns (ok: bool)
      requires Valid()
      modifies this`drive, this`stateCycles, this`stableCycles, this`enableRequest, outputs
      ensures (Abs(), ok) == HandleTest(old(Abs()), inputs, motion)
    {
      hide AllMatch, FaultFound, WithControlword, OperationLost, PlacePoint, Relatched;
      if motion.QuickStop? {
        SetAllControlwords(CONTROLWORD_QUICK_STOP);
        return true;
      }
      var all, fault := MatchAll(inputs, 0x006F, 0x0027);
      if !all {
        HandleOperationLost(fault, inputs);
        return true;
      }
      var csp := true;
      for k := 0 to AXIS_COUNT
        invariant csp == forall i :: 0 <= i < k ==> outputs[i].mode == MODE_CSP && inputs[i].modeDisplay == MODE_CSP
      {
        if outputs[k].mode != MODE_CSP || inputs[k].modeDisplay != MODE_CSP {
          csp := false;
        }
      }
      assert csp == ModesAreCsp(OutputImage(), inputs);
      if !csp {
        return false;
      }
      if motion.Point? {
        if !motion.staged {
          return false;
        }
        PlaceTargets(motion.target);
      } else if motion.FollowMeasured? {
        FollowPositions(inputs);
      }
      return true;
    }

    // ------------------------------------------------------------------ the brakes

    method ProcessSdo(r: Request) returns (answer: Answer)
      requires Valid()
      modifies this`job
      ensures (job, answer) == Process(old(job), r)
    {
      match job.state {
        case JobIdle =>
          job := Submitted(r);
          answer := Wait;
        case Done =>
          answer := Collected(job, r);
          job := job.(state := JobIdle);
        case _ =>
          answer := Wait;
      }
    }

    method PrepareBrakeRollback(commandPending: bool) returns (idle: bool)
      requires Valid()
      modifies this`job
      ensures (job, idle) == Withdrawn(old(job), commandPending)
    {
      if commandPending {
        if job.state.WritePending? {
          job := job.(state := JobIdle);
        }
      } else if IsPending(job) || job.state.Done? {
        job := job.(state := JobIdle);
      }
      idle := job.state.JobIdle?;
    }

    method SetAxisMode(k: nat, mode: int)
      requires Valid() && k < AXIS_COUNT
      modifies outputs
      ensures OutputImage() == WithMode(old(OutputImage()), k, mode)
    {
      outputs[k] := outputs[k].(mode := mode);
    }

    method RollBackBrake(axis: nat, toZero: bool, restoreMode: bool) returns (ok: bool)
      requires Valid() && 1 <= axis <= 2
      modifies this, outputs
      ensures Valid() && (Abs(), ok) == BrakeRollback(old(Abs()), axis, toZero, restoreMode)
    {
      hide WithControlword, WithMode, Withdrawn;
      if restoreMode && IsSlave(brake.slave) {
        SetAxisMode(Slot(brake.slave, axis), MODE_CSP);
      }
      var idle := PrepareBrakeRollback(false);
      if !idle {
        return false;
      }
      brake := NO_BRAKE;
      stateCycles, stableCycles, enableRequest := 0, 0, false;
      if toZero {
        ToZero();
      } else {
        ToSwitchedOn();
      }
      return true;
    }

    method DisturbBrake(axis: nat) returns (ok: bool)
      requires Valid() && 1 <= axis <= 2
      modifies this, outputs
      ensures Valid() && (Abs(), ok) == BrakeDisturbed(old(Abs()), axis)
    {
      hide BrakeRollback, Withdrawn;
      if Committed(brake.step) {
        return false;
      }
      var idle := PrepareBrakeRollback(CommandMayBePending(brake.step));
      if !idle {
        return false;
      }
      ok := RollBackBrake(axis, true, brake.step >= STEP_SET_MODE_11);
    }

    method BeginBrake()
      requires Valid()
      modifies this`job, this`brake
      ensures Abs() == BrakeBegin(old(Abs()))
    {
      if job.state.Done? {
        job := job.(state := JobIdle);
      }
      if job.state.JobIdle? {
        brake := Brake(STEP_SET_MODE_11, 0, 1, 0, 0, 0);
      }
    }

    method WriteBrake(axis: nat) returns (ok: bool)
      requires Valid()
      modifies this`job, this`brake, this`stateCycles
      ensures (Abs(), ok) == BrakeWrite(old(Abs()), axis)
    {
      hide Process, StepRequest;
      var answer := ProcessSdo(StepRequest(axis, brake));
      if answer.Complete? {
        if brake.step == STEP_WRITE_ZERO {
          brake := brake.(step := STEP_RELATCH);
        } else {
          stateCycles := 0;
          brake := brake.(step := brake.step + 1, retry := 0, feedback1 := 0, feedback2 := 0);
        }
      }
      ok := !answer.Failed?;
    }

    method ReadBrake(axis: nat, nowUs: U32) returns (ok: bool)
      requires Valid()
      modifies this`job, this`brake, this`stateCycles
      ensures (Abs(), ok) == BrakeRead(old(Abs()), axis, nowUs)
    {
      hide Process, StepRequest, StepFeedback;
      var answer := ProcessSdo(StepRequest(axis, brake));
      if answer.Complete? {
        if brake.retry == 0 {
          brake := brake.(feedback1 := answer.value, retry := 1);
        } else {
          brake := brake.(feedback2 := answer.value, retry := 0);
          if brake.feedback1 == StepFeedback(brake.step) && brake.feedback2 == StepFeedback(brake.step) {
            if brake.step == STEP_WAIT_OPEN_FEEDBACK || brake.step == STEP_WAIT_EXECUTE_FEEDBACK {
              brake := brake.(waitStart := nowUs);
            }
            stateCycles := 0;
            brake := brake.(step := brake.step + 1);
          }
        }
      }
      ok := !answer.Failed?;
    }

    method RelatchBrake(axis: nat, inputs: Inputs) returns (ok: bool)
      requires Valid() && 1 <= axis <= 2
      modifies this`brake, this`stateCycles, outputs
      ensures (Abs(), ok) == BrakeRelatch(old(Abs()), axis, inputs)
    {
      if !IsSlave(brake.slave) {
        return false;
      }
      var k := Slot(brake.slave, axis);
      outputs[k] := outputs[k].(target := inputs[k].position, mode := MODE_CSP);
      stateCycles := 0;
      brake := brake.(step := STEP_DONE);
      return true;
    }

    method FinishBrake(axis: nat, inputs: Inputs)
      requires Valid() && 1 <= axis <= 2 && IsSlave(brake.slave)
      modifies this`drive, this`brake, this`stateCycles, this`stableCycles, outputs
      ensures Abs() == BrakeFinish(old(Abs()), axis, inputs)
    {
      if !job.state.JobIdle? {
        return;
      }
      var k := Slot(brake.slave, axis);
      outputs[k] := outputs[k].(target := inputs[k].position);
      stateCycles := 0;
      if brake.slave < 3 {
        brake := Brake(STEP_SET_MODE_11, 0, brake.slave + 1, 0, 0, 0);
      } else {
        brake, stableCycles := NO_BRAKE, 0;
        drive := if axis == 1 then AXIS2_BRAKE_RELEASE else CW06_WAIT_DELAY;
      }
    }

    method HandleBrakeRelease(axis: nat, inputs: Inputs, nowUs: U32) returns (ok: bool)
      requires Valid() && 1 <= axis <= 2
      modifies this, outputs
      ensures Valid() && (Abs(), ok) == HandleBrake(old(Abs()), axis, inputs, nowUs)
    {
      hide AllMatch, FaultFound, BrakeDisturbed, BrakeRollback, BrakeWrite, BrakeRead, BrakeBegin,
           BrakeRelatch, BrakeFinish, WithMode;
      ok := true;
      var all, fault := MatchAll(inputs, 0x004F, 0x0040);
      if !all {
        ok := DisturbBrake(axis);
      } else if brake.step == STEP_IDLE {
        BeginBrake();
      } else if brake.step == STEP_SET_MODE_11 {
        if !IsSlave(brake.slave) {
          return false;
        }
        SetAxisMode(Slot(brake.slave, axis), MODE_BRAKE);
        stateCycles := 0;
        brake := brake.(retry := 0, step := STEP_WRITE_OPEN);
      } else if IsWriteStep(brake.step) {
        ok := WriteBrake(axis);
      } else if IsReadStep(brake.step) {
        ok := ReadBrake(axis, nowUs);
      } else if brake.step == STEP_WAIT_OPEN_10_MS || brake.step == STEP_WAIT_10_MS {
        if Sub32(nowUs, brake.waitStart) >= BRAKE_DELAY_US {
          brake := brake.(step := brake.step + 1);
        }
      } else if brake.step == STEP_RELATCH {
        ok := RelatchBrake(axis, inputs);
      } else if brake.step == STEP_DONE {
        if !IsSlave(brake.slave) {
          return false;
        }
        FinishBrake(axis, inputs);
      } else {
        ok := RollBackBrake(axis, false, true);
      }
    }

    // ------------------------------------------------------------------- the cycle

    method Dispatch(inputs: Inputs, nowUs: U32, motion: Motion) returns (ok: bool)
      requires Valid()
      modifies this, outputs
      ensures Valid() && (Abs(), ok) == Handle(old(Abs()), inputs, nowUs, motion)
    {
      hide HandleBrake, WaitDelay, WaitReady, ReadyToSwitchOn, WaitSwitchedOn, SwitchedOn, WaitTargetStable,
           WaitOperationEnabled, OperationEnabled, HandleTest, RollbackWait;
      ok := true;
      match drive {
        case AXIS1_BRAKE_RELEASE => ok := HandleBrakeRelease(1, inputs, nowUs);
        case AXIS2_BRAKE_RELEASE => ok := HandleBrakeRelease(2, inputs, nowUs);
        case CW06_WAIT_DELAY => HandleWaitDelay(inputs);
        case CW06_WAIT_READY => HandleWaitReady(inputs);
        case CW06_DONE => HandleReadyToSwitchOn(inputs);
        case CW07_WAIT_SWITCHED_ON => HandleWaitSwitchedOn(inputs);
        case CW07_DONE => HandleSwitchedOn(inputs);
        case CW0F_WAIT_TARGET_STABLE => HandleWaitTargetStable(inputs);
        case CW0F_WAIT_OPERATION_ENABLED => HandleWaitOperationEnabled(inputs);
        case CW0F_DONE => HandleOperationEnabled(inputs);
        case TEST => ok := HandleMotion(inputs, motion);
        case CW0F_ROLLBACK_CW07 => HandleRollbackWait(inputs);
        case CW06_ROLLBACK_ZERO => drive := CW06_FAILED;
        case _ =>
      }
    }

    method AfterGoodExchange(inputs: Inputs, nowUs: U32, motion: Motion) returns (ok: bool)
      requires Valid()
      modifies this, outputs
      ensures Valid() && (Abs(), ok) == GoodCycle(old(Abs()), inputs, nowUs, motion)
    {
      hide Handle, WithControlword;
      badWkc := 0;
      ok := Dispatch(inputs, nowUs, motion);
      if ok && drive == CW06_FAILED {
        SetAllControlwords(0x0000);
      }
    }

    method LoseBrake() returns (ok: bool)
      requires Valid() && IsBrake(drive)
      modifies this`drive, this`job, this`brake, outputs
      ensures (Abs(), ok) == LossInBrake(old(Abs()))
    {
      hide Withdrawn, WithMode, WithControlword;
      if Committed(brake.step) {
        return false;
      }
      var idle := PrepareBrakeRollback(CommandMayBePending(brake.step));
      if !idle {
        return false;
      }
      if IsSlave(brake.slave) {
        SetAxisMode(Slot(brake.slave, AxisOf(drive)), MODE_CSP);
      }
      brake := NO_BRAKE;
      ToZero();
      return true;
    }

    method AfterBadExchange() returns (ok: bool)
      requires Valid()
      modifies this, outputs
      ensures Valid() && (Abs(), ok) == BadCycle(old(Abs()))
    {
      hide LossInBrake, WithControlword;
      badWkc := badWkc + 1;
      if badWkc < WKC_ROLLBACK_LIMIT {
        return true;
      }
      ok := true;
      if drive == CW06_WAIT_DELAY {
        stateCycles := 0;
      } else if RollsBackOnLoss(drive) {
        stateCycles, stableCycles, enableRequest := 0, 0, false;
        if IsBrake(drive) {
          ok := LoseBrake();
        } else {
          ToZero();
        }
      }
      ok := ok && badWkc < WKC_FAULT_LIMIT;
    }

    // From the CAN task.
    method RequestEnableOperation() returns (accepted: bool)
      requires Valid()
      modifies this`enableRequest
      ensures (Abs(), accepted) == RequestEnable(old(Abs()))
    {
      accepted := false;
      if drive == CW07_DONE && !enableRequest {
        enableRequest, accepted := true, true;
      }
    }
  }

  // The fault bit is part of the awaited status, so a passing check has seen no fault.
  lemma PassingHasNoFault(image: Image, inputs: Inputs)
    requires PassesEnableCheck(image, inputs)
    ensures !FaultFound(inputs)
  {
    forall k | 0 <= k < AXIS_COUNT ensures !HasFault(inputs[k]) {
      assert StatusMatches(inputs[k], 0x006F, 0x0023);
      StatusWithoutFault(inputs[k].statusword);
    }
  }

  lemma StatusWithoutFault(status: bv16)
    requires status & 0x006F == 0x0023
    ensures status & 0x0008 == 0
  {
    assert status & 0x0008 == (status & 0x006F) & 0x0008;
  }
}
