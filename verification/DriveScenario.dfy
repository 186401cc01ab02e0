// A run of the EtherCAT task from a fresh session to a confirmed point: thirty SDO writes
// release the six brakes, the drives are brought to Operation Enabled and a prefilled buffer
// moves the arm. What is proved of such runs is said of something.
module DriveScenario {
  import opened Words
  import opened Pdo
  import opened SdoSlot
  import opened RobotTrajectory
  import opened DriveRuntime
  import opened EtherCatTask
  import S = DriveSession
  import E = Execution

  // The run with one more event.
  lemma Then(states: seq<Task>, events: seq<Event>, e: Event) returns (states': seq<Task>, events': seq<Event>)
    requires Run(states, events) && Enabled(states[|events|], e)
    ensures states' == states + [Next(states[|events|], e)] && events' == events + [e]
    ensures Run(states', events')
  {
    hide Next, Enabled, Initial;
    states', events' := states + [Next(states[|events|], e)], events + [e];
    forall i | 0 <= i < |events'| ensures Enabled(states'[i], events'[i])
      ensures states'[i + 1] == Next(states'[i], events'[i])
    {
      if i < |events| {
        assert states'[i] == states[i] && events'[i] == events[i] && states'[i + 1] == states[i + 1];
      }
    }
  }

  // Every drive reports this statusword, mode 8 and standstill at zero.
  function Reporting(statusword: bv16): Inputs { seq(AXIS_COUNT, _ => AxisIn(statusword, 0, 0, MODE_CSP, 0)) }

  const DISABLED_DRIVES: Inputs := Reporting(0x0040)
  const READY_DRIVES: Inputs := Reporting(0x0021)
  const ON_DRIVES: Inputs := Reporting(0x0023)
  const ENABLED_DRIVES: Inputs := Reporting(0x0027)

  // Between cycles, before motion, with an untouched buffer.
  predicate Resting(t: Task) {
    && t.session.alive && t.node.pc.AtExchange? && !t.node.test
    && t.session.rt.image == t.node.image && t.node.dev == RobotTrajectory.Init() && t.node.log == []
  }

  // One good cycle outside motion.
  lemma Cycle(states: seq<Task>, events: seq<Event>, inputs: Inputs, nowUs: U32)
      returns (states': seq<Task>, events': seq<Event>)
    requires Run(states, events) && Resting(states[|events|]) && states[|events|].session.rt.drive != TEST
    requires S.Next(states[|events|].session, S.GoodExchange(inputs, nowUs, KeepTargets)).alive
    ensures Run(states', events') && states' != []
    ensures
      var t, t' := states[|events|], states'[|events'|];
      && t'.session == S.Next(t.session, S.GoodExchange(inputs, nowUs, KeepTargets))
      && t'.node == t.node.(image := t'.session.rt.image, test := t'.session.rt.drive == TEST)
  {
    hide S.Next;
    states', events' := Then(states, events, Exchanged(inputs, nowUs, 0));
    states', events' := Then(states', events', Handles);
    hide Run;
  }

  lemma Ask(states: seq<Task>, events: seq<Event>, request: S.Event)
      returns (states': seq<Task>, events': seq<Event>)
    requires Run(states, events) && FromOtherTasks(request) && S.Enabled(states[|events|].session, request)
    ensures Run(states', events') && states' != []
    ensures states'[|events'|] == states[|events|].(session := S.Next(states[|events|].session, request))
  {
    hide S.Next, S.Enabled;
    states', events' := Then(states, events, FromOthers(request));
    hide Run;
  }

  // -------------------------------------------------------------------- the brakes

  // A brake step about to be taken, with the job slot idle and so many writes behind.
  predicate AtStep(t: Task, drive: Drive, slave: nat, step: nat, retry: nat, writes: nat) {
    && Resting(t) && t.session.rt.drive == drive && IsBrake(drive)
    && t.session.rt.job.state.JobIdle? && t.session.worker.None?
    && t.session.rt.brake.step == step && t.session.rt.brake.slave == slave && t.session.rt.brake.retry == retry
    && |t.session.writes| == writes
  }

  lemma DisabledMatch()
    ensures AllMatch(DISABLED_DRIVES, 0x004F, 0x0040)
  {
  }

  // The step's request is submitted.
  lemma Asked(states: seq<Task>, events: seq<Event>, drive: Drive, slave: nat, step: nat, retry: nat, writes: nat)
      returns (states': seq<Task>, events': seq<Event>)
    requires Run(states, events) && AtStep(states[|events|], drive, slave, step, retry, writes)
    requires 1 <= slave <= 3 && S.AtWork(step)
    ensures Run(states', events') && states' != []
    ensures
      var t, t' := states[|events|], states'[|events'|];
      && Resting(t') && t'.session.worker.None? && t'.session.writes == t.session.writes
      && t'.session.rt == t.session.rt.(badWkc := 0,
                                        job := Submitted(StepRequest(AxisOf(drive), t.session.rt.brake)))
  {
    DisabledMatch();
    hide AllMatch, S.StagesEnable, WithControlword, DISABLED_DRIVES;
    states', events' := Cycle(states, events, DISABLED_DRIVES, 0);
    hide Run;
  }

  // And the worker answers it.
  lemma Answered(states: seq<Task>, events: seq<Event>, drive: Drive, slave: nat, step: nat, retry: nat,
                 writes: nat, value: U32)
      returns (states': seq<Task>, events': seq<Event>)
    requires Run(states, events) && AtStep(states[|events|], drive, slave, step, retry, writes)
    requires 1 <= slave <= 3 && S.AtWork(step)
    ensures Run(states', events') && states' != []
    ensures
      var t, t' := states[|events|], states'[|events'|];
      var r := StepRequest(AxisOf(drive), t.session.rt.brake);
      && Resting(t') && t'.session.worker.None?
      && t'.session.rt ==
         t.session.rt.(badWkc := 0,
                       job := Job(Done, r.slave, r.index, if r.write then r.data else value, DATA_SIZE, 1))
      && |t'.session.writes| == writes + if r.write then 1 else 0
  {
    states', events' := Asked(states, events, drive, slave, step, retry, writes);
    states', events' := Ask(states', events', S.WorkerClaims);
    states', events' := Ask(states', events', S.WorkerPublishes(value, DATA_SIZE, 1));
    hide Run;
  }

  lemma WriteStepDone(states: seq<Task>, events: seq<Event>, drive: Drive, slave: nat, step: nat, writes: nat)
      returns (states': seq<Task>, events': seq<Event>)
    requires Run(states, events) && AtStep(states[|events|], drive, slave, step, 0, writes)
    requires 1 <= slave <= 3 && IsWriteStep(step)
    ensures Run(states', events') && states' != []
    ensures AtStep(states'[|events'|], drive, slave, step + 1, 0, writes + 1)
  {
    states', events' := Answered(states, events, drive, slave, step, 0, writes, 0);
    DisabledMatch();
    hide AllMatch, S.StagesEnable, WithControlword, DISABLED_DRIVES;
    states', events' := Cycle(states', events', DISABLED_DRIVES, 0);
    hide Run;
  }

  lemma ReadStepDone(states: seq<Task>, events: seq<Event>, drive: Drive, slave: nat, step: nat, writes: nat)
      returns (states': seq<Task>, events': seq<Event>)
    requires Run(states, events) && AtStep(states[|events|], drive, slave, step, 0, writes)
    requires 1 <= slave <= 3 && IsReadStep(step)
    ensures Run(states', events') && states' != []
    ensures AtStep(states'[|events'|], drive, slave, step + 1, 0, writes)
  {
    DisabledMatch();
    hide AllMatch, S.StagesEnable, WithControlword, DISABLED_DRIVES;
    states', events' := Answered(states, events, drive, slave, step, 0, writes, StepFeedback(step));
    states', events' := Cycle(states', events', DISABLED_DRIVES, 0);
    states', events' := Answered(states', events', drive, slave, step, 1, writes, StepFeedback(step));
    states', events' := Cycle(states', events', DISABLED_DRIVES, 0);
    hide Run;
  }

  // A step without the worker: set mode 11, wait, or relatch.
  lemma OtherStepDone(states: seq<Task>, events: seq<Event>, drive: Drive, slave: nat, step: nat, writes: nat)
      returns (states': seq<Task>, events': seq<Event>)
    requires Run(states, events) && AtStep(states[|events|], drive, slave, step, 0, writes)
    requires 1 <= slave <= 3 && STEP_SET_MODE_11 <= step <= STEP_RELATCH && !S.AtWork(step)
    ensures Run(states', events') && states' != []
    ensures AtStep(states'[|events'|], drive, slave, step + 1, 0, writes)
  {
    DisabledMatch();
    hide AllMatch, S.StagesEnable, WithControlword, DISABLED_DRIVES;
    var started := states[|events|].session.rt.brake.waitStart;
    var nowUs: U32 := (started + BRAKE_DELAY_US) % 0x1_0000_0000;
    assert Sub32(nowUs, started) == BRAKE_DELAY_US;
    states', events' := Cycle(states, events, DISABLED_DRIVES, nowUs);
    hide Run;
  }

  function WritesIn(step: nat): nat { if IsWriteStep(step) then 1 else 0 }

  function WritesFrom(step: nat): nat
    requires STEP_SET_MODE_11 <= step <= STEP_DONE
    decreases STEP_DONE - step
  {
    if step == STEP_DONE then 0 else WritesIn(step) + WritesFrom(step + 1)
  }

  lemma StepDone(states: seq<Task>, events: seq<Event>, drive: Drive, slave: nat, step: nat, writes: nat)
      returns (states': seq<Task>, events': seq<Event>)
    requires Run(states, events) && AtStep(states[|events|], drive, slave, step, 0, writes)
    requires 1 <= slave <= 3 && STEP_SET_MODE_11 <= step < STEP_DONE
    ensures Run(states', events') && states' != []
    ensures AtStep(states'[|events'|], drive, slave, step + 1, 0, writes + WritesIn(step))
  {
    if IsWriteStep(step) {
      states', events' := WriteStepDone(states, events, drive, slave, step, writes);
    } else if IsReadStep(step) {
      states', events' := ReadStepDone(states, events, drive, slave, step, writes);
    } else {
      states', events' := OtherStepDone(states, events, drive, slave, step, writes);
    }
    hide Run, AtStep;
  }

  // The remaining steps of one axis.
  lemma {:induction false} StepsDone(states: seq<Task>, events: seq<Event>, drive: Drive, slave: nat, step: nat,
                                     writes: nat)
      returns (states': seq<Task>, events': seq<Event>)
    requires Run(states, events) && AtStep(states[|events|], drive, slave, step, 0, writes)
    requires 1 <= slave <= 3 && STEP_SET_MODE_11 <= step <= STEP_DONE
    ensures Run(states', events') && states' != []
    ensures AtStep(states'[|events'|], drive, slave, STEP_DONE, 0, writes + WritesFrom(step))
    decreases STEP_DONE - step
  {
    hide AtStep, Initial, Next, Enabled, IsWriteStep;
    states', events' := states, events;
    if step < STEP_DONE {
      states', events' := StepDone(states, events, drive, slave, step, writes);
      states', events' := StepsDone(states', events', drive, slave, step + 1, writes + WritesIn(step));
    }
    hide Run;
  }

  lemma FiveWrites()
    ensures WritesFrom(STEP_SET_MODE_11) == 5
  {
    assert WritesFrom(11) == 1;
    assert WritesFrom(8) == 2;
    assert WritesFrom(6) == 3;
  }

  // The first step of an axis, or the step to its next slave.
  lemma NextSlave(states: seq<Task>, events: seq<Event>, drive: Drive, slave: nat, writes: nat)
      returns (states': seq<Task>, events': seq<Event>)
    requires Run(states, events) && slave < 3
    requires AtStep(states[|events|], drive, slave, if slave == 0 then STEP_IDLE else STEP_DONE, 0, writes)
    ensures Run(states', events') && states' != []
    ensures AtStep(states'[|events'|], drive, slave + 1, STEP_SET_MODE_11, 0, writes)
  {
    DisabledMatch();
    hide AllMatch, S.StagesEnable, WithControlword, DISABLED_DRIVES;
    states', events' := Cycle(states, events, DISABLED_DRIVES, 0);
    hide Run;
  }

  lemma {:induction false} SlavesDone(states: seq<Task>, events: seq<Event>, drive: Drive, slave: nat, writes: nat)
      returns (states': seq<Task>, events': seq<Event>)
    requires Run(states, events) && slave < 3
    requires AtStep(states[|events|], drive, slave, if slave == 0 then STEP_IDLE else STEP_DONE, 0, writes)
    ensures Run(states', events') && states' != []
    ensures AtStep(states'[|events'|], drive, 3, STEP_DONE, 0, writes + 5 * (3 - slave))
    decreases 3 - slave
  {
    hide AtStep, Initial, Next, Enabled, WritesFrom;
    states', events' := NextSlave(states, events, drive, slave, writes);
    states', events' := StepsDone(states', events', drive, slave + 1, STEP_SET_MODE_11, writes);
    FiveWrites();
    if slave + 1 < 3 {
      states', events' := SlavesDone(states', events', drive, slave + 1, writes + 5);
    }
    hide Run;
  }

  lemma AxisDone(states: seq<Task>, events: seq<Event>, drive: Drive, writes: nat)
      returns (states': seq<Task>, events': seq<Event>)
    requires Run(states, events) && AtStep(states[|events|], drive, 3, STEP_DONE, 0, writes)
    ensures Run(states', events') && states' != []
    ensures
      var t' := states'[|events'|];
      if drive == AXIS1_BRAKE_RELEASE then AtStep(t', AXIS2_BRAKE_RELEASE, 0, STEP_IDLE, 0, writes)
      else Waiting(t', CW06_WAIT_DELAY) && t'.session.rt.stateCycles == 0 && |t'.session.writes| == writes
  {
    DisabledMatch();
    hide AllMatch, S.StagesEnable, WithControlword, DISABLED_DRIVES;
    states', events' := Cycle(states, events, DISABLED_DRIVES, 0);
    hide Run;
  }

  // All six brakes are released, by the whole script.
  lemma ReachDelay(image: Image) returns (states: seq<Task>, events: seq<Event>)
    requires AllControlwords(image, 0x0000)
    ensures Run(states, events) && states != [] && Waiting(states[|events|], CW06_WAIT_DELAY)
    ensures states[|events|].session.rt.stateCycles == 0 && |states[|events|].session.writes| == 30
  {
    states, events := [Task(S.Start(image), E.Start(image), DISABLED_DRIVES, 0)], [];
    hide Next, Enabled, DISABLED_DRIVES;
    assert Run(states, events);
    assert AtStep(states[0], AXIS1_BRAKE_RELEASE, 0, STEP_IDLE, 0, 0);
    hide AtStep, Initial, Run, Waiting;
    states, events := SlavesDone(states, events, AXIS1_BRAKE_RELEASE, 0, 0);
    states, events := AxisDone(states, events, AXIS1_BRAKE_RELEASE, 15);
    states, events := SlavesDone(states, events, AXIS2_BRAKE_RELEASE, 0, 15);
    states, events := AxisDone(states, events, AXIS2_BRAKE_RELEASE, 30);
  }

  // ------------------------------------------------------------ to Operation Enabled

  predicate Waiting(t: Task, drive: Drive) {
    Resting(t) && t.session.rt.drive == drive
  }

  lemma {:induction false} DelayDone(states: seq<Task>, events: seq<Event>, left: nat)
      returns (states': seq<Task>, events': seq<Event>)
    requires Run(states, events) && Waiting(states[|events|], CW06_WAIT_DELAY)
    requires states[|events|].session.rt.stateCycles + left + 1 == DELAY_CYCLES
    ensures Run(states', events') && states' != [] && Waiting(states'[|events'|], CW06_WAIT_READY)
    ensures |states'[|events'|].session.writes| == |states[|events|].session.writes|
    decreases left
  {
    DisabledMatch();
    hide AllMatch, S.StagesEnable, WithControlword, DISABLED_DRIVES;
    states', events' := Cycle(states, events, DISABLED_DRIVES, 0);
    if left > 0 {
      states', events' := DelayDone(states', events', left - 1);
    }
    hide Run;
  }

  lemma ReadyMatch()
    ensures AllMatch(READY_DRIVES, 0x006F, 0x0021)
  {
  }

  lemma OnMatch()
    ensures AllMatch(ON_DRIVES, 0x006F, 0x0023)
  {
  }

  lemma EnabledMatch()
    ensures AllMatch(ENABLED_DRIVES, 0x006F, 0x0027)
  {
  }

  lemma ReadyDone(states: seq<Task>, events: seq<Event>) returns (states': seq<Task>, events': seq<Event>)
    requires Run(states, events) && Waiting(states[|events|], CW06_WAIT_READY)
    ensures Run(states', events') && states' != [] && Waiting(states'[|events'|], CW07_WAIT_SWITCHED_ON)
    ensures states'[|events'|].session.writes == states[|events|].session.writes
  {
    ReadyMatch();
    hide AllMatch, S.StagesEnable, WithControlword, READY_DRIVES;
    states', events' := Cycle(states, events, READY_DRIVES, 0);
    states', events' := Cycle(states', events', READY_DRIVES, 0);
    hide Run;
  }

  lemma SwitchedOnDone(states: seq<Task>, events: seq<Event>) returns (states': seq<Task>, events': seq<Event>)
    requires Run(states, events) && Waiting(states[|events|], CW07_WAIT_SWITCHED_ON)
    ensures Run(states', events') && states' != [] && Waiting(states'[|events'|], CW07_DONE)
    ensures states'[|events'|].session.writes == states[|events|].session.writes
  {
    OnMatch();
    hide AllMatch, S.StagesEnable, WithControlword, ON_DRIVES;
    states', events' := Cycle(states, events, ON_DRIVES, 0);
    hide Run;
  }

  // At rest on its targets, with so many passing cycles behind.
  predicate Settling(t: Task, passes: nat) {
    && Waiting(t, CW0F_WAIT_TARGET_STABLE)
    && t.session.rt.stableCycles == passes && t.session.rt.stateCycles == passes
    && PassesEnableCheck(t.node.image, ON_DRIVES)
  }

  lemma RelatchPasses(image: Image)
    requires AllControlwords(image, 0x0007) && AllModes(image, MODE_CSP)
    ensures CanRelatch(image, ON_DRIVES)
    ensures PassesEnableCheck(RelatchedAtRest(image, ON_DRIVES), ON_DRIVES)
  {
  }

  // An enable request is accepted and the targets are relatched.
  lemma RequestDone(states: seq<Task>, events: seq<Event>) returns (states': seq<Task>, events': seq<Event>)
    requires Run(states, events) && Waiting(states[|events|], CW07_DONE)
    ensures Run(states', events') && states' != [] && Settling(states'[|events'|], 0)
    ensures states'[|events'|].session.writes == states[|events|].session.writes
  {
    RunKeepsInv(states, events, |events|);
    RelatchPasses(states[|events|].node.image);
    OnMatch();
    hide AllMatch, S.StagesEnable, WithControlword, ON_DRIVES, CanRelatch, PassesEnableCheck, RelatchedAtRest,
         S.SlotOk, E.Inv;
    states', events' := Ask(states, events, S.EnableRequest);
    states', events' := Cycle(states', events', ON_DRIVES, 0);
    hide Run;
  }

  lemma SettlingStep(states: seq<Task>, events: seq<Event>, passes: nat)
      returns (states': seq<Task>, events': seq<Event>)
    requires Run(states, events) && passes < STABLE_CYCLES && Settling(states[|events|], passes)
    ensures Run(states', events') && states' != []
    ensures if passes + 1 < STABLE_CYCLES then Settling(states'[|events'|], passes + 1)
            else Waiting(states'[|events'|], CW0F_WAIT_OPERATION_ENABLED)
    ensures states'[|events'|].session.writes == states[|events|].session.writes
  {
    PassingHasNoFault(states[|events|].node.image, ON_DRIVES);
    hide S.StagesEnable, WithControlword, ON_DRIVES, PassesEnableCheck, FaultFound;
    states', events' := Cycle(states, events, ON_DRIVES, 0);
    hide Run;
  }

  lemma SettlingDone(states: seq<Task>, events: seq<Event>) returns (states': seq<Task>, events': seq<Event>)
    requires Run(states, events) && Settling(states[|events|], 0)
    ensures Run(states', events') && states' != [] && Waiting(states'[|events'|], CW0F_WAIT_OPERATION_ENABLED)
    ensures states'[|events'|].session.writes == states[|events|].session.writes
  {
    hide Settling, Waiting, Initial, Next, Enabled;
    states', events' := SettlingStep(states, events, 0);
    states', events' := SettlingStep(states', events', 1);
    states', events' := SettlingStep(states', events', 2);
    hide Run;
  }

  // In motion, between cycles, with an untouched buffer.
  predicate InMotion(t: Task) {
    && t.session.alive && t.node.pc.AtExchange? && t.node.test && t.session.rt.drive == TEST
    && t.node.dev == RobotTrajectory.Init() && t.node.log == []
  }

  lemma OperationDone(states: seq<Task>, events: seq<Event>) returns (states': seq<Task>, events': seq<Event>)
    requires Run(states, events) && Waiting(states[|events|], CW0F_WAIT_OPERATION_ENABLED)
    ensures Run(states', events') && states' != [] && InMotion(states'[|events'|])
    ensures states'[|events'|].session.writes == states[|events|].session.writes
  {
    EnabledMatch();
    hide AllMatch, S.StagesEnable, WithControlword, ENABLED_DRIVES;
    states', events' := Cycle(states, events, ENABLED_DRIVES, 0);
    states', events' := Cycle(states', events', ENABLED_DRIVES, 0);
    hide Run;
  }

  // Whatever image the session starts from, motion is reachable, by all thirty writes.
  lemma MotionIsReached(image: Image) returns (states: seq<Task>, events: seq<Event>)
    requires AllControlwords(image, 0x0000)
    ensures Run(states, events) && states != [] && InMotion(states[|events|])
    ensures |states[|events|].session.writes| == 30
  {
    hide Run, Waiting, Settling, InMotion;
    states, events := ReachDelay(image);
    states, events := DelayDone(states, events, DELAY_CYCLES - 1);
    states, events := ReadyDone(states, events);
    states, events := SwitchedOnDone(states, events);
    states, events := RequestDone(states, events);
    states, events := SettlingDone(states, events);
    states, events := OperationDone(states, events);
  }

  // ------------------------------------------------------------- a confirmed point

  // So many points queued, none of which is stale at tick zero.
  predicate Filled(t: Task, count: nat) {
    && t.session.alive && t.node.pc.AtExchange? && t.node.test && t.session.rt.drive == TEST && t.node.log == []
    && t.node.dev.state == PREFILL && !t.node.dev.resetRequired && t.node.dev.staged == None
    && |t.node.dev.queue| == count > 0 && t.node.dev.expected == Some(count % 0x100)
    && t.node.dev.queue[0].validityMs == 40 && t.node.dev.queue[0].receivedTick == 0
  }

  lemma {:induction false} FillingDone(states: seq<Task>, events: seq<Event>, target: Target, count: nat)
      returns (states': seq<Task>, events': seq<Event>)
    requires Run(states, events) && InMotion(states[|events|]) && 0 < count <= PREFILL_COUNT
    ensures Run(states', events') && states' != [] && Filled(states'[|events'|], count)
    ensures states'[|events'|].session == states[|events|].session
    decreases count
  {
    var frame: E.Event;
    if count == 1 {
      states', events' := states, events;
      frame := E.ResetFrame(RobotTrajectory.Point(0, target, 40, 0));
    } else {
      states', events' := FillingDone(states, events, target, count - 1);
      frame := E.ApplyFrame(RobotTrajectory.Point(count - 1, target, 40, 0));
    }
    states', events' := Then(states', events', FromCan(frame));
    hide Run;
  }

  lemma FilledTakes(n: E.Node, inputs: Inputs)
    requires n.pc.Dispatching? && n.test
    requires n.dev.state == PREFILL && !n.dev.resetRequired && |n.dev.queue| == PREFILL_COUNT
    requires n.dev.queue[0].validityMs == 40 && n.dev.queue[0].receivedTick == 0
    ensures
      var n' := E.Next(n, E.TestTake(0, inputs));
      && n'.pc.Taken? && n'.log == n.log && n'.pc.generation == n'.dev.generation
      && n'.dev.state == RUNNING && !n'.dev.resetRequired && n'.dev.staged == n.dev.staged
  {
  }

  lemma DispatchDone(states: seq<Task>, events: seq<Event>) returns (states': seq<Task>, events': seq<Event>)
    requires Run(states, events) && Filled(states[|events|], PREFILL_COUNT)
    ensures Run(states', events') && states' != []
    ensures
      var t, t' := states[|events|], states'[|events'|];
      && t'.session == t.session && t'.node == t.node.(pc := E.Dispatching) && t'.inputs == ENABLED_DRIVES
  {
    hide ENABLED_DRIVES;
    states', events' := Then(states, events, Exchanged(ENABLED_DRIVES, 0, 1));
    hide Run;
  }

  lemma TakeDone(states: seq<Task>, events: seq<Event>) returns (states': seq<Task>, events': seq<Event>)
    requires Run(states, events) && Filled(states[|events|], PREFILL_COUNT)
    ensures Run(states', events') && states' != []
    ensures
      var t' := states'[|events'|];
      && t'.session.alive && t'.node.pc.Taken? && t'.node.log == [] && t'.node.pc.generation == t'.node.dev.generation
      && t'.node.dev.state == RUNNING && !t'.node.dev.resetRequired && t'.node.dev.staged == None
  {
    hide Fit, S.Inv, S.Requested, E.Inv, S.Next, E.Next, ENABLED_DRIVES, Initial, Coupled;
    RunKeepsInv(states, events, |events|);
    FitToMove(states[|events|]);
    states', events' := DispatchDone(states, events);
    FilledTakes(states'[|events'|].node, ENABLED_DRIVES);
    states', events' := Then(states', events', Takes(0));
    hide Run;
  }

  lemma StageDone(states: seq<Task>, events: seq<Event>) returns (states': seq<Task>, events': seq<Event>)
    requires Run(states, events)
    requires
      var t := states[|events|];
      && t.session.alive && t.node.pc.Taken? && t.node.log == [] && t.node.pc.generation == t.node.dev.generation
      && t.node.dev.state == RUNNING && !t.node.dev.resetRequired && t.node.dev.staged == None
    ensures Run(states', events') && states' != []
    ensures
      var t' := states'[|events'|];
      && t'.session.alive && t'.node.pc.ReadyToCommit? && t'.node.log == []
      && t'.node.dev.state == RUNNING && !t'.node.dev.resetRequired
      && t'.node.dev.staged.Some? && t'.node.dev.staged.value.generation == t'.node.dev.generation
  {
    hide S.Next, Fit;
    states', events' := Then(states, events, Stages);
    hide Run;
  }

  lemma CommitDone(states: seq<Task>, events: seq<Event>) returns (states': seq<Task>, events': seq<Event>)
    requires Run(states, events)
    requires
      var n := states[|events|].node;
      && states[|events|].session.alive && n.pc.ReadyToCommit? && n.log == []
      && n.dev.state == RUNNING && !n.dev.resetRequired
      && n.dev.staged.Some? && n.dev.staged.value.generation == n.dev.generation
    ensures Run(states', events') && states' != [] && |states'[|events'|].node.log| == 1
  {
    hide S.Next, Fit, E.Next, Handled;
    states', events' := Then(states, events, Commits);
    CommittedNode(states[|events|].node);
    RunKeepsInv(states', events', |events'|);
    hide S.Inv, S.Requested, E.Inv, Next, Enabled;
    states', events' := ConfirmDone(states', events');
    hide Run;
  }

  lemma CommittedNode(n: E.Node)
    requires n.pc.ReadyToCommit?
    ensures E.Next(n, E.TestCommit) == n.(image := E.Next(n, E.TestCommit).image, pc := E.AtExchange)
  {
  }

  lemma ConfirmDone(states: seq<Task>, events: seq<Event>) returns (states': seq<Task>, events': seq<Event>)
    requires Run(states, events) && Coupled(states[|events|])
    requires
      var n := states[|events|].node;
      && n.pc.AtExchange? && n.log == [] && n.dev.state == RUNNING && !n.dev.resetRequired
      && n.dev.staged.Some? && n.dev.staged.value.generation == n.dev.generation
    ensures Run(states', events') && states' != [] && |states'[|events'|].node.log| == 1
  {
    hide Fit, ENABLED_DRIVES;
    states', events' := Then(states, events, Exchanged(ENABLED_DRIVES, 0, 2));
    hide Run;
  }

  lemma FitToMove(t: Task)
    requires S.Inv(t.session) && Coupled(t) && t.session.alive && t.session.rt.drive == TEST
    ensures Fit(t.node.image, ENABLED_DRIVES)
  {
    EnabledMatch();
    hide AllMatch;
  }

  // From there the eight points run, and the first is sent and confirmed.
  lemma ConfirmationIsReached(image: Image, target: Target) returns (states: seq<Task>, events: seq<Event>)
    requires AllControlwords(image, 0x0000)
    ensures Run(states, events) && states != [] && |states[|events|].node.log| == 1
  {
    hide InMotion, Filled, Initial, Next, Enabled;
    states, events := MotionIsReached(image);
    states, events := FillingDone(states, events, target, PREFILL_COUNT);
    states, events := TakeDone(states, events);
    states, events := StageDone(states, events);
    states, events := CommitDone(states, events);
    hide Run;
  }
}
