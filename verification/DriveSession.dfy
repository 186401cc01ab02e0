// One OPERATIONAL session: the drive state machine with the SDO worker, enable requests
// and lost exchanges arriving in any order.
//
// `restored`, `writes`, `accepts`, `stagings`, `streak` and `latched` are history: no step
// reads them.
module DriveSession {
  import opened Words
  import opened Pdo
  import opened SdoSlot
  import opened DriveRuntime

  // An SDO write as the worker claimed it.
  datatype Write = Write(slave: nat, index: nat, value: U32)

  datatype Session = Session(
    rt: Runtime,
    // false once the exchange was reported lost: the session is over
    alive: bool,
    // the worker's claimed operation: Some(true) for a write
    worker: Option<bool>,
    // the 0x0006 delay has been entered
    restored: bool,
    writes: seq<Write>,
    // accepted enable requests, and stagings of 0x000F
    accepts: nat,
    stagings: nat,
    // passing dispatch cycles in a row
    streak: nat,
    // the image as last relatched
    latched: Image)

  datatype Event =
    | GoodExchange(inputs: Inputs, nowUs: U32, motion: Motion)
    | BadExchange
    | EnableRequest
    | WorkerClaims
    | WorkerPublishes(data: U32, size: int, wkc: int)

  function Start(image: Image): Session {
    Session(BeginSession(image), true, None, false, [], 0, 0, 0, image)
  }

  predicate Enabled(s: Session, e: Event) {
    match e
    case WorkerClaims => s.worker.None? && IsPending(s.rt.job)
    case WorkerPublishes(_, _, _) => s.worker.Some?
    case _ => s.alive
  }

  // Some axis is newly commanded to Enable Operation.
  predicate StagesEnable(before: Image, after: Image) {
    exists k :: 0 <= k < AXIS_COUNT && before[k].controlword != 0x000F && after[k].controlword == 0x000F
  }

  function Recorded(s: Session, rt: Runtime, alive: bool, passed: bool): Session {
    s.(rt := rt, alive := alive,
       restored := s.restored || rt.drive == CW06_WAIT_DELAY,
       streak := if passed then s.streak + 1 else 0,
       stagings := if StagesEnable(s.rt.image, rt.image) then s.stagings + 1 else s.stagings,
       latched := if s.rt.drive == CW07_DONE && rt.drive == CW0F_WAIT_TARGET_STABLE then rt.image else s.latched)
  }

  function Next(s: Session, e: Event): Session
    requires Enabled(s, e)
  {
    match e
    case GoodExchange(inputs, nowUs, motion) =>
      var (rt, ok) := GoodCycle(s.rt, inputs, nowUs, motion);
      Recorded(s, rt, ok, s.rt.drive == CW0F_WAIT_TARGET_STABLE && PassesEnableCheck(s.rt.image, inputs))
    case BadExchange =>
      var (rt, ok) := BadCycle(s.rt);
      s.(rt := rt, alive := ok,
         stagings := if StagesEnable(s.rt.image, rt.image) then s.stagings + 1 else s.stagings)
    case EnableRequest =>
      var (rt, accepted) := DriveRuntime.RequestEnable(s.rt);
      s.(rt := rt, accepts := if accepted then s.accepts + 1 else s.accepts)
    case WorkerClaims =>
      var job := s.rt.job;
      s.(rt := s.rt.(job := Claimed(job)), worker := Some(job.state.WritePending?),
         writes := if job.state.WritePending? then s.writes + [Write(job.slave, job.index, job.data)] else s.writes)
    case WorkerPublishes(data, size, wkc) =>
      s.(rt := s.rt.(job := Published(s.rt.job, s.worker.value, data, size, wkc)), worker := None)
  }

  predicate Run(states: seq<Session>, events: seq<Event>) {
    && |states| == |events| + 1
    && states[0] == Start(states[0].rt.image) && AllControlwords(states[0].rt.image, 0x0000)
    && forall i :: 0 <= i < |events| ==>
         Enabled(states[i], events[i]) && states[i + 1] == Next(states[i], events[i])
  }

  // --------------------------------------------------------- controlwords and modes

  // The controlword that goes with each drive state.
  predicate Commanded(d: Drive, image: Image) {
    match d
    case CW06_WAIT_READY => AllControlwords(image, 0x0006)
    case CW06_DONE => AllControlwords(image, 0x0006)
    case CW07_WAIT_SWITCHED_ON => AllControlwords(image, 0x0007)
    case CW07_DONE => AllControlwords(image, 0x0007)
    case CW0F_WAIT_TARGET_STABLE => AllControlwords(image, 0x0007)
    case CW0F_ROLLBACK_CW07 => AllControlwords(image, 0x0007)
    case CW0F_WAIT_OPERATION_ENABLED => AllControlwords(image, 0x000F)
    case CW0F_DONE => AllControlwords(image, 0x000F)
    case TEST =>
      || AllControlwords(image, 0x000F)
      || AllControlwords(image, CONTROLWORD_MOVE)
      || AllControlwords(image, CONTROLWORD_QUICK_STOP)
    case _ => AllControlwords(image, 0x0000)
  }

  predicate MayStillBrake(d: Drive) { IsBrake(d) || d == CW06_ROLLBACK_ZERO || d == CW06_FAILED }

  predicate ModesOk(restored: bool, r: Runtime) {
    && (restored ==> AllModes(r.image, MODE_CSP) && !IsBrake(r.drive))
    && (!MayStillBrake(r.drive) ==> restored)
    && r.drive != DISABLED
  }

  predicate SameTargets(a: Image, b: Image) { forall k :: 0 <= k < AXIS_COUNT ==> a[k].target == b[k].target }

  predicate EnableOk(s: Session) {
    && (s.rt.enableRequest ==> s.rt.drive == CW07_DONE)
    && s.stagings + (if s.rt.enableRequest then 1 else 0) +
       (if s.rt.drive == CW0F_WAIT_TARGET_STABLE then 1 else 0) <= s.accepts
    && (s.rt.drive == CW0F_WAIT_TARGET_STABLE ==>
          s.rt.stableCycles == s.streak < STABLE_CYCLES && SameTargets(s.rt.image, s.latched))
  }

  // ------------------------------------------------------------------- the brake script

  function Script(k: nat): Write {
    var axis := k / 15 + 1;
    var slave := k % 15 / 5 + 1;
    var c := k % 5;
    Write(slave, CommandIndex(axis),
          if c == 0 then COMMAND_OPEN else if c == 2 then COMMAND_EXECUTE else if c == 4 then 0 else COMMAND_CLEAR)
  }

  predicate FollowsScript(writes: seq<Write>) {
    |writes| <= 30 && forall k :: 0 <= k < |writes| ==> writes[k] == Script(k)
  }

  function WritesBefore(step: nat): nat {
    if step <= STEP_WRITE_OPEN then 0
    else if step <= STEP_WRITE_OPEN_CLEAR then 1
    else if step <= STEP_WRITE_EXECUTE then 2
    else if step <= STEP_WRITE_CLEAR then 3
    else if step <= STEP_WRITE_ZERO then 4
    else 5
  }

  // Axes finished before this one.
  function AxesBefore(axis: nat, b: Brake): nat
    requires 1 <= axis
  {
    3 * (axis - 1) + if b.slave == 0 then 0 else b.slave - 1
  }

  // The write of the current step has been claimed.
  function InHand(step: nat, job: Job): nat {
    if IsWriteStep(step) && (job.state.Running? || job.state.Done?) then 1 else 0
  }

  predicate AtWork(step: nat) { IsWriteStep(step) || IsReadStep(step) }

  predicate BrakeOk(r: Runtime, worker: Option<bool>, written: nat)
    requires IsBrake(r.drive)
  {
    var axis, b := AxisOf(r.drive), r.brake;
    && b.step <= STEP_DONE && b.retry <= 1
    && (if b.step == STEP_IDLE then b == NO_BRAKE else IsSlave(b.slave))
    && (if AtWork(b.step) then r.job.state.JobIdle? || Serves(r.job, StepRequest(axis, b)) else r.job.state.JobIdle?)
    && (worker.Some? ==> worker.value == IsWriteStep(b.step))
    && written == 5 * AxesBefore(axis, b) + WritesBefore(b.step) + InHand(b.step, r.job)
    && ModesSoFar(r.image, axis, b)
  }

  // Finished axes are back in mode 8; the current one is once its step says so.
  predicate ModesSoFar(image: Image, axis: nat, b: Brake)
    requires 1 <= axis <= 2
  {
    && (axis == 2 ==> forall slave :: 1 <= slave <= 3 ==> image[Slot(slave, 1)].mode == MODE_CSP)
    && (forall slave :: 1 <= slave <= 3 && slave < b.slave ==> image[Slot(slave, axis)].mode == MODE_CSP)
    && (b.step == STEP_DONE && IsSlave(b.slave) ==> image[Slot(b.slave, axis)].mode == MODE_CSP)
  }

  // A submitted write the worker may still claim is the next one of the script.
  predicate NextInScript(job: Job, written: nat) {
    job.state.WritePending? ==> written < 30 && Write(job.slave, job.index, job.data) == Script(written)
  }

  predicate SlotOk(s: Session) {
    && (s.worker.Some? <==> s.rt.job.state.Running?)
    && FollowsScript(s.writes)
    && (if !s.alive then NextInScript(s.rt.job, |s.writes|)
        else if IsBrake(s.rt.drive) then BrakeOk(s.rt, s.worker, |s.writes|)
        else s.rt.job.state.JobIdle?)
  }

  predicate Inv(s: Session) {
    && SlotOk(s)
    && (s.alive ==> Commanded(s.rt.drive, s.rt.image) && ModesOk(s.restored, s.rt) && EnableOk(s))
    && s.stagings <= s.accepts
  }

  lemma StartHolds(image: Image)
    requires AllControlwords(image, 0x0000)
    ensures Inv(Start(image))
  {
  }

  // ------------------------------------------------------------------- brake cycles

  lemma WriteFollowsScript(axis: nat, b: Brake)
    requires 1 <= axis <= 2 && IsSlave(b.slave) && IsWriteStep(b.step)
    ensures
      var r := StepRequest(axis, b);
      Script(5 * AxesBefore(axis, b) + WritesBefore(b.step)) == Write(r.slave, r.index, r.data)
  {
  }

  lemma WritesStayInScript(axis: nat, b: Brake)
    requires 1 <= axis <= 2 && IsSlave(b.slave) && IsWriteStep(b.step)
    ensures 5 * AxesBefore(axis, b) + WritesBefore(b.step) < 30
  {
  }

  lemma PendingFollowsScript(s: Session)
    requires Inv(s)
    ensures NextInScript(s.rt.job, |s.writes|)
  {
    if s.alive && s.rt.job.state.WritePending? {
      WriteFollowsScript(AxisOf(s.rt.drive), s.rt.brake);
      WritesStayInScript(AxisOf(s.rt.drive), s.rt.brake);
    }
    hide Script, ModesSoFar, FollowsScript, EnableOk, ModesOk, Commanded;
  }

  // What one brake handler call keeps.
  predicate BrakeKept(s: Session, rt: Runtime, ok: bool) {
    && (s.worker.Some? <==> rt.job.state.Running?)
    && !StagesEnable(s.rt.image, rt.image)
    && (!ok ==> rt.job == s.rt.job || !rt.job.state.WritePending?)
    && (ok ==>
          && Commanded(rt.drive, rt.image)
          && ModesOk(rt.drive == CW06_WAIT_DELAY, rt)
          && !rt.enableRequest && rt.drive != CW0F_WAIT_TARGET_STABLE
          && (if IsBrake(rt.drive) then BrakeOk(rt, s.worker, |s.writes|) else rt.job.state.JobIdle?))
  }

  predicate Braking(s: Session) { Inv(s) && s.alive && IsBrake(s.rt.drive) }

  lemma RollbackKeeps(s: Session, r: Runtime, axis: nat, toZero: bool, restore: bool)
    requires Braking(s) && axis == AxisOf(s.rt.drive) && r == s.rt.(job := r.job)
    requires toZero && (s.worker.Some? <==> r.job.state.Running?)
    requires r.job == s.rt.job || !r.job.state.WritePending?
    ensures BrakeKept(s, BrakeRollback(r, axis, toZero, restore).0, BrakeRollback(r, axis, toZero, restore).1)
  {
  }

  lemma DisturbedKeeps(s: Session)
    requires Braking(s)
    ensures BrakeKept(s, BrakeDisturbed(s.rt, AxisOf(s.rt.drive)).0, BrakeDisturbed(s.rt, AxisOf(s.rt.drive)).1)
  {
    var (job, idle) := Withdrawn(s.rt.job, CommandMayBePending(s.rt.brake.step));
    RollbackKeeps(s, s.rt.(job := job), AxisOf(s.rt.drive), true, s.rt.brake.step >= STEP_SET_MODE_11);
    hide BrakeRollback;
  }

  lemma WriteKeeps(s: Session)
    requires Braking(s) && IsWriteStep(s.rt.brake.step)
    ensures BrakeKept(s, BrakeWrite(s.rt, AxisOf(s.rt.drive)).0, BrakeWrite(s.rt, AxisOf(s.rt.drive)).1)
  {
  }

  lemma ReadKeeps(s: Session, nowUs: U32)
    requires Braking(s) && IsReadStep(s.rt.brake.step)
    ensures BrakeKept(s, BrakeRead(s.rt, AxisOf(s.rt.drive), nowUs).0, BrakeRead(s.rt, AxisOf(s.rt.drive), nowUs).1)
  {
  }

  lemma RelatchKeeps(s: Session, inputs: Inputs)
    requires Braking(s) && s.rt.brake.step == STEP_RELATCH
    ensures
      var (rt, ok) := BrakeRelatch(s.rt, AxisOf(s.rt.drive), inputs);
      BrakeKept(s, rt, ok)
  {
  }

  lemma SixSlots(image: Image)
    requires forall slave :: 1 <= slave <= 3 ==>
               image[Slot(slave, 1)].mode == MODE_CSP && image[Slot(slave, 2)].mode == MODE_CSP
    ensures AllModes(image, MODE_CSP)
  {
    forall k | 0 <= k < AXIS_COUNT ensures image[k].mode == MODE_CSP {
      assert k == Slot(k / 2 + 1, k % 2 + 1);
    }
  }

  lemma FinishKeeps(s: Session, inputs: Inputs)
    requires Braking(s) && s.rt.brake.step == STEP_DONE
    ensures BrakeKept(s, BrakeFinish(s.rt, AxisOf(s.rt.drive), inputs), true)
  {
    var rt := BrakeFinish(s.rt, AxisOf(s.rt.drive), inputs);
    if rt.drive == CW06_WAIT_DELAY {
      SixSlots(rt.image);
    }
  }

  lemma BrakeKeeps(s: Session, inputs: Inputs, nowUs: U32)
    requires Braking(s)
    ensures
      var (rt, ok) := HandleBrake(s.rt, AxisOf(s.rt.drive), inputs, nowUs);
      BrakeKept(s, rt, ok)
  {
    var step := s.rt.brake.step;
    if !AllMatch(inputs, 0x004F, 0x0040) { DisturbedKeeps(s); }
    else if IsWriteStep(step) { WriteKeeps(s); }
    else if IsReadStep(step) { ReadKeeps(s, nowUs); }
    else if step == STEP_RELATCH { RelatchKeeps(s, inputs); }
    else if step == STEP_DONE { FinishKeeps(s, inputs); }
    hide AllMatch, BrakeDisturbed, BrakeRollback, BrakeWrite, BrakeRead, BrakeRelatch, BrakeFinish, FollowsScript;
  }

  // ------------------------------------------------------------------- other cycles

  lemma ControlwordSet(image: Image, controlword: U16)
    ensures AllControlwords(WithControlword(image, controlword), controlword)
    ensures forall mode :: AllModes(image, mode) ==> AllModes(WithControlword(image, controlword), mode)
    ensures SameTargets(image, WithControlword(image, controlword))
  {
  }

  // Enable requests spent: one while pending, one while the targets settle.
  function Owed(r: Runtime): nat {
    (if r.enableRequest then 1 else 0) + (if r.drive == CW0F_WAIT_TARGET_STABLE then 1 else 0)
  }

  function Staged(before: Image, after: Image): nat { if StagesEnable(before, after) then 1 else 0 }

  predicate Driving(s: Session) { Inv(s) && s.alive && !IsBrake(s.rt.drive) }

  // Past the brakes: what every handler keeps.
  predicate DriveKept(s: Session, rt: Runtime, ok: bool, passed: bool) {
    && rt.job == s.rt.job
    && Staged(s.rt.image, rt.image) + Owed(rt) <= Owed(s.rt)
    && (ok ==>
          && !IsBrake(rt.drive)
          && Commanded(rt.drive, rt.image)
          && ModesOk(s.restored || rt.drive == CW06_WAIT_DELAY, rt)
          && (rt.enableRequest ==> rt.drive == CW07_DONE)
          && (rt.drive == CW0F_WAIT_TARGET_STABLE ==>
                && rt.stableCycles == (if passed then s.streak + 1 else 0) < STABLE_CYCLES
                && (s.rt.drive == CW07_DONE || (s.rt.drive == rt.drive && rt.image == s.rt.image))))
  }

  lemma MissedKeeps(s: Session, r: Runtime, inputs: Inputs, limit: nat)
    requires Driving(s) && r == s.rt.(enableRequest := r.enableRequest) && s.rt.drive != CW0F_WAIT_TARGET_STABLE
    requires r.enableRequest ==> s.rt.enableRequest
    requires s.rt.drive == CW07_DONE ==> !r.enableRequest
    ensures DriveKept(s, Missed(r, inputs, limit), true, false)
  {
    ControlwordSet(r.image, 0x0000);
    hide FollowsScript, FaultFound;
  }

  lemma DelayKeeps(s: Session, inputs: Inputs)
    requires Driving(s) && s.rt.drive == CW06_WAIT_DELAY
    ensures DriveKept(s, WaitDelay(s.rt, inputs), true, false)
  {
    ControlwordSet(s.rt.image, 0x0006);
    hide FollowsScript, FaultFound, AllMatch, WithControlword;
  }

  lemma SwitchOnKeeps(s: Session, inputs: Inputs)
    requires Driving(s)
    ensures s.rt.drive == CW06_WAIT_READY ==> DriveKept(s, WaitReady(s.rt, inputs), true, false)
    ensures s.rt.drive == CW06_DONE ==> DriveKept(s, ReadyToSwitchOn(s.rt, inputs), true, false)
    ensures s.rt.drive == CW07_WAIT_SWITCHED_ON ==> DriveKept(s, WaitSwitchedOn(s.rt, inputs), true, false)
  {
    ControlwordSet(s.rt.image, 0x0007);
    if s.rt.drive == CW06_WAIT_READY || s.rt.drive == CW06_DONE || s.rt.drive == CW07_WAIT_SWITCHED_ON {
      MissedKeeps(s, s.rt, inputs, STATE_TIMEOUT);
      MissedKeeps(s, s.rt, inputs, LOSS_CYCLES);
    }
    hide FollowsScript, FaultFound, AllMatch, Missed, WithControlword;
  }

  lemma SwitchedOnKeeps(s: Session, inputs: Inputs)
    requires Driving(s) && s.rt.drive == CW07_DONE
    ensures DriveKept(s, SwitchedOn(s.rt, inputs), true, false)
  {
    ControlwordSet(s.rt.image, 0x0000);
    MissedKeeps(s, s.rt.(enableRequest := false), inputs, LOSS_CYCLES);
    hide FollowsScript, FaultFound, AllMatch, Missed, WithControlword;
  }

  lemma TargetStableKeeps(s: Session, inputs: Inputs)
    requires Driving(s) && s.rt.drive == CW0F_WAIT_TARGET_STABLE
    ensures DriveKept(s, WaitTargetStable(s.rt, inputs), true, PassesEnableCheck(s.rt.image, inputs))
  {
    ControlwordSet(s.rt.image, 0x0000);
    ControlwordSet(s.rt.image, 0x000F);
    hide FollowsScript, FaultFound, PassesEnableCheck, WithControlword;
  }

  lemma LostKeeps(s: Session, inputs: Inputs)
    requires Driving(s) && (s.rt.drive == CW0F_DONE || s.rt.drive == TEST)
    ensures DriveKept(s, OperationLost(s.rt, inputs), true, false)
  {
    ControlwordSet(s.rt.image, 0x0000);
    ControlwordSet(s.rt.image, 0x0007);
    hide FollowsScript, FaultFound, WithControlword;
  }

  lemma OperationKeeps(s: Session, inputs: Inputs)
    requires Driving(s)
    ensures s.rt.drive == CW0F_WAIT_OPERATION_ENABLED ==> DriveKept(s, WaitOperationEnabled(s.rt, inputs), true, false)
    ensures s.rt.drive == CW0F_DONE ==> DriveKept(s, OperationEnabled(s.rt, inputs), true, false)
    ensures s.rt.drive == CW0F_ROLLBACK_CW07 ==> DriveKept(s, RollbackWait(s.rt, inputs), true, false)
  {
    ControlwordSet(s.rt.image, 0x0000);
    ControlwordSet(s.rt.image, 0x0007);
    if s.rt.drive == CW0F_DONE {
      LostKeeps(s, inputs);
    }
    hide FollowsScript, FaultFound, AllMatch, OperationLost, WithControlword;
  }

  lemma MotionKeeps(s: Session, inputs: Inputs, motion: Motion)
    requires Driving(s) && s.rt.drive == TEST
    ensures DriveKept(s, HandleTest(s.rt, inputs, motion).0, HandleTest(s.rt, inputs, motion).1, false)
  {
    LostKeeps(s, inputs);
    hide FollowsScript, FaultFound, AllMatch, OperationLost;
  }

  predicate Passed(s: Session, inputs: Inputs) {
    s.rt.drive == CW0F_WAIT_TARGET_STABLE && PassesEnableCheck(s.rt.image, inputs)
  }

  lemma HandleKeeps(s: Session, inputs: Inputs, nowUs: U32, motion: Motion)
    requires Driving(s)
    ensures
      var (rt, ok) := Handle(s.rt, inputs, nowUs, motion);
      DriveKept(s, rt, ok, Passed(s, inputs))
  {
    match s.rt.drive {
      case CW06_WAIT_DELAY => DelayKeeps(s, inputs);
      case CW07_DONE => SwitchedOnKeeps(s, inputs);
      case CW0F_WAIT_TARGET_STABLE => TargetStableKeeps(s, inputs);
      case TEST => MotionKeeps(s, inputs, motion);
      case _ =>
        SwitchOnKeeps(s, inputs);
        OperationKeeps(s, inputs);
    }
    hide FollowsScript, PassesEnableCheck, WaitDelay, WaitReady, ReadyToSwitchOn, WaitSwitchedOn, SwitchedOn,
         WaitTargetStable, WaitOperationEnabled, OperationEnabled, HandleTest, RollbackWait, HandleBrake;
  }

  // ------------------------------------------------------------------------ steps

  lemma GoodKeepsDrive(s: Session, e: Event)
    requires Driving(s) && e.GoodExchange?
    ensures Inv(Next(s, e))
  {
    HandleKeeps(s.(rt := s.rt.(badWkc := 0)), e.inputs, e.nowUs, e.motion);
    var (handled, ok) := Handle(s.rt.(badWkc := 0), e.inputs, e.nowUs, e.motion);
    ControlwordSet(handled.image, 0x0000);
    hide FollowsScript, PassesEnableCheck, Handle, WithControlword;
  }

  lemma GoodKeepsBrake(s: Session, e: Event)
    requires Braking(s) && e.GoodExchange?
    ensures Inv(Next(s, e))
  {
    PendingFollowsScript(s);
    BrakeKeeps(s.(rt := s.rt.(badWkc := 0)), e.inputs, e.nowUs);
    hide FollowsScript, PassesEnableCheck, HandleBrake, BrakeOk, WithControlword, Script;
  }

  lemma LossKeepsBrake(s: Session, r: Runtime)
    requires Braking(s)
    requires r == s.rt.(badWkc := r.badWkc, stateCycles := r.stateCycles, stableCycles := 0, enableRequest := false)
    ensures BrakeKept(s, LossInBrake(r).0, LossInBrake(r).1)
  {
    hide FollowsScript;
  }

  lemma BadKeepsBrake(s: Session)
    requires Braking(s)
    ensures Inv(Next(s, BadExchange))
  {
    PendingFollowsScript(s);
    LossKeepsBrake(s, s.rt.(badWkc := s.rt.badWkc + 1, stateCycles := 0, stableCycles := 0, enableRequest := false));
    hide Script, FollowsScript, LossInBrake, WithControlword, BrakeOk;
  }

  lemma BadKeepsDrive(s: Session)
    requires Driving(s)
    ensures Inv(Next(s, BadExchange))
  {
    ControlwordSet(s.rt.image, 0x0000);
    hide Script, FollowsScript, LossInBrake, WithControlword, BrakeOk;
  }

  lemma BadKeepsInv(s: Session)
    requires Inv(s) && s.alive
    ensures Inv(Next(s, BadExchange))
  {
    hide Inv, Next;
    if IsBrake(s.rt.drive) {
      BadKeepsBrake(s);
    } else {
      BadKeepsDrive(s);
    }
  }

  lemma RequestKeepsInv(s: Session)
    requires Inv(s) && s.alive
    ensures Inv(Next(s, EnableRequest))
  {
    hide FollowsScript;
  }

  lemma ClaimKeepsInv(s: Session)
    requires Inv(s) && Enabled(s, WorkerClaims)
    ensures Inv(Next(s, WorkerClaims))
  {
    PendingFollowsScript(s);
    hide Script, ModesSoFar;
  }

  lemma PublishKeepsInv(s: Session, e: Event)
    requires Inv(s) && Enabled(s, e) && e.WorkerPublishes?
    ensures Inv(Next(s, e))
  {
    hide FollowsScript, ModesSoFar;
  }

  lemma StepKeepsInv(s: Session, e: Event)
    requires Inv(s) && Enabled(s, e)
    ensures Inv(Next(s, e))
  {
    match e
    case GoodExchange(_, _, _) =>
      if IsBrake(s.rt.drive) { GoodKeepsBrake(s, e); } else { GoodKeepsDrive(s, e); }
      hide Next, Inv;
    case BadExchange => BadKeepsInv(s); hide Next, Inv;
    case EnableRequest => RequestKeepsInv(s); hide Next, Inv;
    case WorkerClaims => ClaimKeepsInv(s); hide Next, Inv;
    case WorkerPublishes(_, _, _) => PublishKeepsInv(s, e); hide Next, Inv;
  }

  lemma {:induction false} RunKeepsInv(states: seq<Session>, events: seq<Event>, k: nat)
    requires Run(states, events) && k < |states|
    ensures Inv(states[k])
    decreases k
  {
    hide Inv, Next, Enabled, AllControlwords;
    if k == 0 {
      StartHolds(states[0].rt.image);
    } else {
      RunKeepsInv(states, events, k - 1);
      assert Enabled(states[k - 1], events[k - 1]) && states[k] == Next(states[k - 1], events[k - 1]);
      StepKeepsInv(states[k - 1], events[k - 1]);
    }
  }

  // -------------------------------------------------------------------- the results

  // While the session lasts, all six controlwords are equal and fixed by the drive state.
  lemma ControlwordsFollowDriveState(states: seq<Session>, events: seq<Event>, k: nat)
    requires Run(states, events) && k < |states| && states[k].alive
    ensures Commanded(states[k].rt.drive, states[k].rt.image)
  {
    RunKeepsInv(states, events, k);
    hide Run, Commanded;
  }

  // No cycle, request or lost exchange leads out of FAILED or raises a controlword there.
  lemma FailedIsAbsorbing(s: Session, e: Event)
    requires Inv(s) && Enabled(s, e) && s.rt.drive == CW06_FAILED && s.alive
    ensures Next(s, e).rt.drive == CW06_FAILED
    ensures AllControlwords(Next(s, e).rt.image, 0x0000)
  {
    hide FollowsScript;
  }

  lemma FailedStays(s: Session, e: Event)
    requires Inv(s) && Enabled(s, e) && s.rt.drive == CW06_FAILED && AllControlwords(s.rt.image, 0x0000)
    ensures Next(s, e).rt.drive == CW06_FAILED && AllControlwords(Next(s, e).rt.image, 0x0000)
  {
    if s.alive {
      FailedIsAbsorbing(s, e);
      hide Next;
    }
    hide Inv, AllControlwords;
  }

  // So it is for the rest of the session, and after it.
  lemma {:induction false} FailedLasts(states: seq<Session>, events: seq<Event>, i: nat, j: nat)
    requires Run(states, events) && i <= j < |states|
    requires states[i].alive && states[i].rt.drive == CW06_FAILED
    ensures states[j].rt.drive == CW06_FAILED && AllControlwords(states[j].rt.image, 0x0000)
    decreases j
  {
    hide Inv, AllControlwords, Next, Enabled, Start, Commanded;
    if i == j {
      ControlwordsFollowDriveState(states, events, i);
      FailedCommands(states[i].rt.image);
    } else {
      FailedLasts(states, events, i, j - 1);
      RunKeepsInv(states, events, j - 1);
      assert Enabled(states[j - 1], events[j - 1]) && states[j] == Next(states[j - 1], events[j - 1]);
      FailedStays(states[j - 1], events[j - 1]);
    }
    hide Run;
  }

  lemma FailedCommands(image: Image)
    requires Commanded(CW06_FAILED, image)
    ensures AllControlwords(image, 0x0000)
  {
  }

  lemma StagingDrive(s: Session, inputs: Inputs, nowUs: U32, motion: Motion)
    requires Driving(s)
    requires StagesEnable(s.rt.image, GoodCycle(s.rt, inputs, nowUs, motion).0.image)
    ensures s.rt.drive == CW07_DONE || s.rt.drive == CW0F_WAIT_TARGET_STABLE
  {
    HandleKeeps(s.(rt := s.rt.(badWkc := 0)), inputs, nowUs, motion);
    var handled := Handle(s.rt.(badWkc := 0), inputs, nowUs, motion).0;
    ControlwordSet(handled.image, 0x0000);
    hide Handle, FollowsScript, WithControlword, PassesEnableCheck;
  }

  // Only a settled WAIT_TARGET_STABLE stages 0x000F.
  lemma StagingState(s: Session, e: Event)
    requires Inv(s) && Enabled(s, e)
    ensures StagesEnable(s.rt.image, Next(s, e).rt.image) ==>
      && e.GoodExchange? && s.alive && s.rt.drive == CW0F_WAIT_TARGET_STABLE
      && PassesEnableCheck(s.rt.image, e.inputs) && s.rt.stableCycles + 1 >= STABLE_CYCLES
  {
    if StagesEnable(s.rt.image, Next(s, e).rt.image) {
      hide FollowsScript, FaultFound, AllMatch;
      if e.GoodExchange? {
        if IsBrake(s.rt.drive) {
          BrakeKeeps(s.(rt := s.rt.(badWkc := 0)), e.inputs, e.nowUs);
        } else {
          StagingDrive(s, e.inputs, e.nowUs, e.motion);
        }
      } else if e.BadExchange? {
        ControlwordSet(s.rt.image, 0x0000);
        if IsBrake(s.rt.drive) {
          LossKeepsBrake(s, s.rt.(badWkc := s.rt.badWkc + 1, stateCycles := 0, stableCycles := 0,
                                  enableRequest := false));
        }
      }
      hide HandleBrake, LossInBrake, HandleTest, WaitDelay, WaitReady, ReadyToSwitchOn, WaitSwitchedOn,
           WaitOperationEnabled, OperationEnabled, RollbackWait, PassesEnableCheck, BrakeOk;
    }
  }

  // Operation is enabled only from targets that were relatched for an accepted request of
  // its own, held still since, and passed the check in three dispatch cycles running; at
  // that moment every axis is within one count of its target and turns at most at speed one.
  lemma EnableIsSafe(states: seq<Session>, events: seq<Event>, k: nat)
    requires Run(states, events) && k < |events|
    ensures
      var s, s', e := states[k], states[k + 1], events[k];
      StagesEnable(s.rt.image, s'.rt.image) ==>
        && e.GoodExchange? && s.rt.drive == CW0F_WAIT_TARGET_STABLE
        && s'.rt.drive == CW0F_WAIT_OPERATION_ENABLED && AllControlwords(s'.rt.image, 0x000F)
        && s'.streak == STABLE_CYCLES
        && SameTargets(s'.rt.image, s.latched)
        && s'.stagings == s.stagings + 1 <= s.accepts
        && (forall i :: 0 <= i < AXIS_COUNT ==> AxisAtRest(s.rt.image[i], e.inputs[i]))
  {
    RunKeepsInv(states, events, k);
    var s, e := states[k], events[k];
    assert Enabled(s, e) && states[k + 1] == Next(s, e);
    hide Run;
    if StagesEnable(s.rt.image, states[k + 1].rt.image) {
      StagingState(s, e);
      ControlwordSet(s.rt.image, 0x000F);
      hide WithControlword, FollowsScript, AxisAtRest;
    }
  }

  // The relatch before it sets every target to the measured position.
  lemma RelatchMeasures(states: seq<Session>, events: seq<Event>, k: nat)
    requires Run(states, events) && k < |events|
    ensures
      var s, s', e := states[k], states[k + 1], events[k];
      s.rt.drive != CW0F_WAIT_TARGET_STABLE && s'.rt.drive == CW0F_WAIT_TARGET_STABLE ==>
        && e.GoodExchange? && s.rt.drive == CW07_DONE && s.rt.enableRequest && !s'.rt.enableRequest
        && s'.latched == s'.rt.image
        && forall i :: 0 <= i < AXIS_COUNT ==> s'.latched[i].target == e.inputs[i].position
  {
    assert Enabled(states[k], events[k]) && states[k + 1] == Next(states[k], events[k]);
    hide Run;
    if states[k].rt.drive != CW0F_WAIT_TARGET_STABLE && states[k + 1].rt.drive == CW0F_WAIT_TARGET_STABLE {
      if events[k].GoodExchange? {
        EntersStable(states[k].rt, events[k].inputs, events[k].nowUs, events[k].motion);
        hide GoodCycle;
      }
    }
  }

  lemma BrakeNeverSettles(r: Runtime, axis: nat, inputs: Inputs, nowUs: U32)
    requires 1 <= axis <= 2 && IsBrake(r.drive)
    ensures HandleBrake(r, axis, inputs, nowUs).0.drive != CW0F_WAIT_TARGET_STABLE
    ensures !AsksForOperation(HandleBrake(r, axis, inputs, nowUs).0.drive)
  {
    hide AllMatch, Process, WithControlword, WithMode, Withdrawn;
  }

  lemma EntersStable(r: Runtime, inputs: Inputs, nowUs: U32, motion: Motion)
    requires r.drive != CW0F_WAIT_TARGET_STABLE
    requires GoodCycle(r, inputs, nowUs, motion).0.drive == CW0F_WAIT_TARGET_STABLE
    ensures r.drive == CW07_DONE && r.enableRequest && !GoodCycle(r, inputs, nowUs, motion).0.enableRequest
    ensures GoodCycle(r, inputs, nowUs, motion).0.image == RelatchedAtRest(r.image, inputs)
  {
    if IsBrake(r.drive) {
      BrakeNeverSettles(r.(badWkc := 0), AxisOf(r.drive), inputs, nowUs);
    }
    hide FaultFound, AllMatch, WithControlword, HandleBrake, RelatchedAtRest, CanRelatch;
  }

  // The claimed SDO writes are, one by one, a prefix of the fixed script: axis 1 then 2,
  // slave 1 to 3, open, clear, execute, clear, zero.
  lemma BrakeWritesFollowScript(states: seq<Session>, events: seq<Event>, k: nat)
    requires Run(states, events) && k < |states|
    ensures |states[k].writes| <= 30
    ensures forall i :: 0 <= i < |states[k].writes| ==> states[k].writes[i] == Script(i)
  {
    RunKeepsInv(states, events, k);
    hide Run, Script;
  }

  // In that script each axis is opened once and executed once.
  lemma CommandedOnce(i: nat, j: nat)
    requires i < j < 30 && Script(i) == Script(j)
    ensures Script(i).value == COMMAND_CLEAR
  {
  }

  // Whatever the brake handler collects was claimed for the very request of its step.
  lemma CompletionIsTheSteps(states: seq<Session>, events: seq<Event>, k: nat)
    requires Run(states, events) && k < |states| && states[k].alive
    requires IsBrake(states[k].rt.drive) && states[k].rt.job.state.Done?
    ensures
      var r := states[k].rt;
      && AtWork(r.brake.step)
      && Serves(r.job, StepRequest(AxisOf(r.drive), r.brake))
      && (IsWriteStep(r.brake.step) ==>
            states[k].writes != [] && states[k].writes[|states[k].writes| - 1] ==
              Write(r.brake.slave, CommandIndex(AxisOf(r.drive)), StepCommand(r.brake.step)))
  {
    RunKeepsInv(states, events, k);
    hide Run;
    var r := states[k].rt;
    if IsWriteStep(r.brake.step) {
      WriteFollowsScript(AxisOf(r.drive), r.brake);
    }
    hide Script, ModesSoFar;
  }

  // Once the 0x0006 delay is reached all six modes are 8 and the job slot is idle, and the
  // modes stay 8 for the rest of the session.
  lemma ModesAreRestored(states: seq<Session>, events: seq<Event>, k: nat)
    requires Run(states, events) && k < |states| && states[k].alive
    ensures states[k].restored ==> AllModes(states[k].rt.image, MODE_CSP) && states[k].rt.job.state.JobIdle?
    ensures states[k].rt.drive == CW06_WAIT_DELAY ==> states[k].restored
  {
    RunKeepsInv(states, events, k);
    hide Run, FollowsScript;
  }

  // Progress through the brakes, as a number.
  function Rank(r: Runtime): nat
    requires IsBrake(r.drive)
  {
    15 * AxesBefore(AxisOf(r.drive), r.brake) + r.brake.step
  }

  lemma RankNeverFalls(s: Session, e: Event)
    requires Inv(s) && Enabled(s, e) && s.alive && IsBrake(s.rt.drive)
    requires Next(s, e).alive && IsBrake(Next(s, e).rt.drive)
    ensures Rank(s.rt) <= Rank(Next(s, e).rt)
  {
    hide FollowsScript, FaultFound, AllMatch, Process, ModesSoFar;
  }

  // The brakes are never taken up again.
  lemma BrakesAreBehind(s: Session, e: Event)
    requires Inv(s) && Enabled(s, e) && Next(s, e).alive && IsBrake(Next(s, e).rt.drive)
    ensures s.alive && IsBrake(s.rt.drive)
  {
    if s.alive && !IsBrake(s.rt.drive) && e.GoodExchange? {
      HandleKeeps(s.(rt := s.rt.(badWkc := 0)), e.inputs, e.nowUs, e.motion);
    }
    hide Handle, FollowsScript, WithControlword, PassesEnableCheck, StagesEnable;
  }

  // So over any stretch of a run that ends among the brakes the rank never falls.
  lemma {:induction false} RankOnlyRises(states: seq<Session>, events: seq<Event>, i: nat, j: nat)
    requires Run(states, events) && i <= j < |states|
    requires states[j].alive && IsBrake(states[j].rt.drive)
    ensures states[i].alive && IsBrake(states[i].rt.drive) && Rank(states[i].rt) <= Rank(states[j].rt)
    decreases j
  {
    hide Inv, Next, Enabled, Rank, Start, AllControlwords;
    if i < j {
      RunKeepsInv(states, events, j - 1);
      assert Enabled(states[j - 1], events[j - 1]) && states[j] == Next(states[j - 1], events[j - 1]);
      BrakesAreBehind(states[j - 1], events[j - 1]);
      RankNeverFalls(states[j - 1], events[j - 1]);
      RankOnlyRises(states, events, i, j - 1);
    }
    hide Run;
  }

  // The drive states in which the axes are, or are about to be, in Operation Enabled.
  predicate AsksForOperation(d: Drive) { d == CW0F_WAIT_OPERATION_ENABLED || d == CW0F_DONE || d == TEST }

  lemma OperationIsStaged(r: Runtime, inputs: Inputs, nowUs: U32, motion: Motion)
    requires Commanded(r.drive, r.image) && !IsBrake(r.drive) && r.drive != DISABLED
    requires AsksForOperation(GoodCycle(r, inputs, nowUs, motion).0.drive)
    ensures AsksForOperation(r.drive) || StagesEnable(r.image, GoodCycle(r, inputs, nowUs, motion).0.image)
    ensures GoodCycle(r, inputs, nowUs, motion).0.drive == TEST && r.drive != TEST ==>
              GoodCycle(r, inputs, nowUs, motion).0.image == r.image && AllControlwords(r.image, 0x000F)
  {
    hide FaultFound, AllMatch, PassesEnableCheck, CanRelatch, RelatchedAtRest;
    if r.drive == CW0F_WAIT_TARGET_STABLE {
      assert r.image[0].controlword == 0x0007;
      ControlwordSet(r.image, 0x000F);
      assert WithControlword(r.image, 0x000F)[0].controlword == 0x000F;
    }
  }

  predicate Requested(s: Session) { s.alive && AsksForOperation(s.rt.drive) ==> s.stagings > 0 }

  lemma StepKeepsRequested(s: Session, e: Event)
    requires Inv(s) && Requested(s) && Enabled(s, e)
    ensures Requested(Next(s, e))
  {
    if s.alive && e.GoodExchange? {
      if IsBrake(s.rt.drive) {
        BrakeNeverSettles(s.rt.(badWkc := 0), AxisOf(s.rt.drive), e.inputs, e.nowUs);
      } else if AsksForOperation(GoodCycle(s.rt, e.inputs, e.nowUs, e.motion).0.drive) {
        OperationIsStaged(s.rt, e.inputs, e.nowUs, e.motion);
      }
      hide Handle, HandleBrake;
    } else if s.alive && e.BadExchange? {
      hide LossInBrake, StagesEnable;
      if IsBrake(s.rt.drive) {
        LossLeavesBrake(s.rt.(badWkc := s.rt.badWkc + 1, stateCycles := 0, stableCycles := 0, enableRequest := false));
      }
    }
    hide FollowsScript, WithControlword, Commanded, StagesEnable;
  }

  lemma LossLeavesBrake(r: Runtime)
    requires IsBrake(r.drive)
    ensures !AsksForOperation(LossInBrake(r).0.drive)
  {
    hide Withdrawn, WithControlword;
  }

  // No axis is asked for Operation Enabled without an accepted request.
  lemma OperationWasRequested(states: seq<Session>, events: seq<Event>, k: nat)
    requires Run(states, events) && k < |states| && states[k].alive
    requires AsksForOperation(states[k].rt.drive)
    ensures 0 < states[k].stagings <= states[k].accepts
  {
    RunKeepsInv(states, events, k);
    RunIsRequested(states, events, k);
    hide Run;
  }

  lemma {:induction false} RunIsRequested(states: seq<Session>, events: seq<Event>, k: nat)
    requires Run(states, events) && k < |states|
    ensures Requested(states[k])
    decreases k
  {
    if k > 0 {
      RunIsRequested(states, events, k - 1);
      RunKeepsInv(states, events, k - 1);
      hide Inv, Next, Enabled, Requested;
      assert Enabled(states[k - 1], events[k - 1]) && states[k] == Next(states[k - 1], events[k - 1]);
      StepKeepsRequested(states[k - 1], events[k - 1]);
    }
  }

  predicate SomeAxisMoves(image: Image) {
    exists k :: 0 <= k < AXIS_COUNT && image[k].controlword == CONTROLWORD_MOVE
  }

  lemma OnlyMotionMoves(d: Drive, image: Image)
    requires Commanded(d, image) && SomeAxisMoves(image)
    ensures d == TEST
  {
  }

  predicate PlacesPoint(s: Session, e: Event) {
    e.GoodExchange? && s.rt.drive == TEST && e.motion.Point? && e.motion.staged
  }

  lemma HandlerMovesNothing(s: Session, e: Event)
    requires Inv(s) && s.alive && e.GoodExchange? && Next(s, e).alive && Next(s, e).rt.drive == TEST
    requires !PlacesPoint(s, e) && SomeAxisMoves(Next(s, e).rt.image)
    ensures SomeAxisMoves(s.rt.image)
  {
    if s.rt.drive != TEST {
      if IsBrake(s.rt.drive) {
        BrakeNeverSettles(s.rt.(badWkc := 0), AxisOf(s.rt.drive), e.inputs, e.nowUs);
      } else {
        OperationIsStaged(s.rt, e.inputs, e.nowUs, e.motion);
      }
      hide Handle, HandleBrake;
    }
    hide AllMatch, ModesAreCsp, FaultFound, StagesEnable, Commanded, FollowsScript, OperationLost;
  }

  // Only the motion handler with a staged point stages the move controlword.
  lemma MoveNeedsPoint(s: Session, e: Event)
    requires Inv(s) && Enabled(s, e) && s.alive && Next(s, e).alive
    requires !PlacesPoint(s, e) && SomeAxisMoves(Next(s, e).rt.image)
    ensures SomeAxisMoves(s.rt.image)
  {
    StepKeepsInv(s, e);
    OnlyMotionMoves(Next(s, e).rt.drive, Next(s, e).rt.image);
    if e.GoodExchange? {
      HandlerMovesNothing(s, e);
      hide Next;
    }
    hide SomeAxisMoves, Inv, StagesEnable, LossInBrake, WithControlword;
  }
}
