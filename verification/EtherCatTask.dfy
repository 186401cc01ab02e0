// The EtherCAT task whole: the drive state machine of module DriveSession and the
// trajectory buffer's task of module Execution working on one process image, while frames,
// holds, enable requests and the SDO worker come between any two steps.
//
// A step of the task is a step of one part or of both. The motion handler's answer from the
// buffer is no longer an input: it is what taking and staging the point gave.
module EtherCatTask {
  import opened Words
  import opened Pdo
  import opened RobotTrajectory
  import opened DriveRuntime
  import S = DriveSession
  import D = DriveRules
  import E = Execution

  datatype Task = Task(
    session: S.Session,
    node: E.Node,
    // what the cycle's exchange brought
    inputs: Inputs,
    nowUs: U32)

  datatype Event =
    // a frame or a hold demand for the buffer
    | FromCan(frame: E.Event)
    // an enable request or a step of the SDO worker
    | FromOthers(request: S.Event)
    | Exchanged(inputs: Inputs, nowUs: U32, cycle: U32)
    | ExchangeFailed
    | Handles
    // the motion handler, by its branches
    | StopsQuickly(reason: U8)
    | FindsUnfit(reason: U8)
    | FindsSilence(reason: U8)
    | Takes(tick: U32)
    | Stages
    | Commits

  predicate FromCanTask(e: E.Event) {
    e.ResetFrame? || e.ApplyFrame? || e.HoldDemand? || e.Received? || e.Rejected?
  }

  predicate FromOtherTasks(e: S.Event) { e.EnableRequest? || e.WorkerClaims? || e.WorkerPublishes? }

  // All axes are enabled and in mode 8.
  predicate Fit(image: Image, inputs: Inputs) { AllMatch(inputs, 0x006F, 0x0027) && ModesAreCsp(image, inputs) }

  predicate AtMotion(t: Task) { t.node.pc.Dispatching? && t.session.alive && t.session.rt.drive == TEST }

  predicate Enabled(t: Task, e: Event) {
    match e
    case FromCan(frame) => FromCanTask(frame) && E.Enabled(t.node, frame)
    case FromOthers(request) => FromOtherTasks(request) && S.Enabled(t.session, request)
    case Exchanged(_, _, _) => t.node.pc.AtExchange? && t.session.alive
    case ExchangeFailed => t.node.pc.AtExchange? && t.session.alive
    case Handles => t.node.pc.Dispatching? && t.session.alive && t.session.rt.drive != TEST && !t.node.test
    case StopsQuickly(_) => AtMotion(t) && t.node.test
    case FindsUnfit(_) => AtMotion(t) && t.node.test && !Fit(t.node.image, t.inputs)
    case FindsSilence(_) => AtMotion(t) && t.node.test && Fit(t.node.image, t.inputs)
    case Takes(_) => AtMotion(t) && t.node.test && Fit(t.node.image, t.inputs)
    case Stages => t.node.pc.Taken? && t.session.alive
    case Commits => t.node.pc.ReadyToCommit? && t.session.alive
  }

  // The session after the handlers of a good cycle, given the buffer's answer.
  function Handled(t: Task, motion: Motion): S.Session
    requires t.session.alive
  {
    S.Next(t.session, S.GoodExchange(t.inputs, t.nowUs, motion))
  }

  // What the session's step means to the buffer's task when a motion handler demanded a hold.
  function Stopped(s': S.Session, reason: U8): E.Event {
    if s'.alive then E.TestFault(reason, s'.rt.image, s'.rt.drive == TEST) else E.SessionLost(Some(reason))
  }

  function AfterFailure(n: E.Node, s': S.Session): E.Event {
    if !s'.alive then E.SessionLost(if n.test then Some(HOLD_REASON_ETHERCAT_NOT_OP) else None)
    else if s'.rt.badWkc < WKC_ROLLBACK_LIMIT then E.ToleratedExchange
    else E.LostExchange(s'.rt.image)
  }

  function AfterHandler(s': S.Session): E.Event {
    if s'.alive then E.OtherHandler(s'.rt.image, s'.rt.drive == TEST) else E.SessionLost(None)
  }

  function Next(t: Task, e: Event): Task
    requires Enabled(t, e)
  {
    match e
    case FromCan(frame) => t.(node := E.Next(t.node, frame))
    case FromOthers(request) => t.(session := S.Next(t.session, request))
    case Exchanged(inputs, nowUs, cycle) =>
      t.(node := E.Next(t.node, E.GoodExchange(cycle)), inputs := inputs, nowUs := nowUs)
    case ExchangeFailed =>
      var s' := S.Next(t.session, S.BadExchange);
      t.(session := s', node := E.Next(t.node, AfterFailure(t.node, s')))
    case Handles =>
      var s' := Handled(t, KeepTargets);
      t.(session := s', node := E.Next(t.node, AfterHandler(s')))
    case StopsQuickly(reason) =>
      var s' := Handled(t, QuickStop);
      t.(session := s', node := E.Next(t.node, Stopped(s', reason)))
    case FindsUnfit(reason) =>
      var s' := Handled(t, KeepTargets);
      t.(session := s', node := E.Next(t.node, Stopped(s', reason)))
    case FindsSilence(reason) =>
      var s' := Handled(t, FollowMeasured);
      t.(session := s', node := E.Next(t.node, Stopped(s', reason)))
    case Takes(tick) =>
      var n' := E.Next(t.node, E.TestTake(tick, t.inputs));
      if n'.pc.Taken? then t.(node := n')
      else
        t.(session := Handled(t, if RobotTrajectory.Take(t.node.dev, tick).1.TakeGrace? then KeepTargets
                                 else FollowMeasured),
           node := n')
    case Stages =>
      var n' := E.Next(t.node, E.TestStage);
      if n'.pc.ReadyToCommit? then t.(node := n')
      else t.(session := Handled(t, DriveRuntime.Point(t.node.pc.point.target, false)), node := n')
    case Commits =>
      t.(session := Handled(t, DriveRuntime.Point(t.node.pc.point.target, true)), node := E.Next(t.node, E.TestCommit))
  }

  // ------------------------------------------------------------- both parts agree

  // While the session lasts the two parts hold the same image and the same idea of where the
  // task is. What a failed handler leaves behind is never sent.
  predicate Coupled(t: Task) {
    && (t.session.alive <==> !t.node.pc.Over?)
    && (t.session.alive ==>
          t.session.rt.image == t.node.image && (t.node.test <==> t.session.rt.drive == TEST))
    && (t.node.pc.Taken? || t.node.pc.ReadyToCommit? ==>
          t.session.rt.drive == TEST && Fit(t.node.image, t.inputs))
  }

  lemma FrameKeepsCoupled(t: Task, e: Event)
    requires Coupled(t) && Enabled(t, e) && e.FromCan?
    ensures Coupled(Next(t, e))
  {
    hide Fit;
  }

  lemma OthersKeepCoupled(t: Task, e: Event)
    requires Coupled(t) && Enabled(t, e) && e.FromOthers?
    ensures Coupled(Next(t, e))
  {
    hide Fit;
  }

  lemma ExchangeKeepsCoupled(t: Task, e: Event)
    requires Coupled(t) && Enabled(t, e) && (e.Exchanged? || e.ExchangeFailed?)
    ensures Coupled(Next(t, e))
  {
    hide Fit, WithControlword, S.StagesEnable;
  }

  // A handler other than the motion handler needs no answer from the buffer.
  lemma HandlerKeepsCoupled(t: Task, e: Event)
    requires Coupled(t) && Enabled(t, e) && e.Handles?
    ensures Coupled(Next(t, e))
  {
    hide Fit, Handle, S.StagesEnable, WithControlword, PassesEnableCheck;
  }

  // The motion handler on a fit cycle does with the image exactly what the buffer's task does.
  lemma MotionAgrees(t: Task, motion: Motion)
    requires Coupled(t) && t.session.alive && t.session.rt.drive == TEST && Fit(t.node.image, t.inputs)
    requires !motion.QuickStop?
    ensures
      var s' := Handled(t, motion);
      && s'.rt.drive == TEST
      && (s'.alive <==> !(motion.Point? && !motion.staged))
      && s'.rt.image == match motion
                        case Point(target, staged) => if staged then PlacePoint(t.node.image, target) else t.node.image
                        case KeepTargets => t.node.image
                        case _ => Relatched(t.node.image, t.inputs)
  {
    hide AllMatch, ModesAreCsp, S.StagesEnable, PlacePoint, Relatched;
  }

  lemma QuickStopKeepsCoupled(t: Task, e: Event)
    requires Coupled(t) && Enabled(t, e) && e.StopsQuickly?
    ensures Coupled(Next(t, e))
  {
    hide Fit, S.StagesEnable, WithControlword, FaultFound, Relatched;
  }

  lemma UnfitKeepsCoupled(t: Task, e: Event)
    requires Coupled(t) && Enabled(t, e) && e.FindsUnfit?
    ensures Coupled(Next(t, e))
  {
    hide AllMatch, ModesAreCsp, S.StagesEnable, WithControlword, FaultFound, Relatched;
  }

  lemma SilenceKeepsCoupled(t: Task, e: Event)
    requires Coupled(t) && Enabled(t, e) && e.FindsSilence?
    ensures Coupled(Next(t, e))
  {
    MotionAgrees(t, FollowMeasured);
    hide Fit, Handled, Relatched;
  }

  lemma MotionKeepsCoupled(t: Task, e: Event)
    requires Coupled(t) && Enabled(t, e) && (e.Takes? || e.Stages? || e.Commits?)
    ensures Coupled(Next(t, e))
  {
    hide Fit, Handled, RobotTrajectory.Take, Stage;
    match e
    case Takes(tick) =>
      MotionAgrees(t, if RobotTrajectory.Take(t.node.dev, tick).1.TakeGrace? then KeepTargets else FollowMeasured);
    case Stages =>
      MotionAgrees(t, DriveRuntime.Point(t.node.pc.point.target, false));
    case Commits =>
      MotionAgrees(t, DriveRuntime.Point(t.node.pc.point.target, true));
  }

  lemma StepKeepsCoupled(t: Task, e: Event)
    requires Coupled(t) && Enabled(t, e)
    ensures Coupled(Next(t, e))
  {
    hide Coupled, Enabled, Next;
    match e
    case FromCan(_) => FrameKeepsCoupled(t, e);
    case FromOthers(_) => OthersKeepCoupled(t, e);
    case Exchanged(_, _, _) => ExchangeKeepsCoupled(t, e);
    case ExchangeFailed => ExchangeKeepsCoupled(t, e);
    case Handles => HandlerKeepsCoupled(t, e);
    case Takes(_) => MotionKeepsCoupled(t, e);
    case Stages => MotionKeepsCoupled(t, e);
    case Commits => MotionKeepsCoupled(t, e);
    case FindsSilence(_) => SilenceKeepsCoupled(t, e);
    case StopsQuickly(_) => QuickStopKeepsCoupled(t, e);
    case FindsUnfit(_) => UnfitKeepsCoupled(t, e);
  }

  // ----------------------------------------------------------------- over whole runs

  predicate Initial(t: Task) {
    && t.session == S.Start(t.node.image) && t.node == E.Start(t.node.image)
    && AllControlwords(t.node.image, 0x0000)
  }

  predicate Run(states: seq<Task>, events: seq<Event>) {
    && |states| == |events| + 1
    && Initial(states[0])
    && forall i :: 0 <= i < |events| ==>
         Enabled(states[i], events[i]) && states[i + 1] == Next(states[i], events[i])
  }

  lemma InitialHolds(t: Task)
    requires Initial(t)
    ensures Coupled(t) && S.Inv(t.session) && S.Requested(t.session) && E.Inv(t.node)
  {
    S.StartHolds(t.node.image);
    E.StartHolds(t.node.image);
    hide S.Inv, E.Inv, AllControlwords;
  }

  // Every step is a step of each part, or leaves that part alone.
  lemma StepKeepsParts(t: Task, e: Event)
    requires S.Inv(t.session) && S.Requested(t.session) && E.Inv(t.node) && Enabled(t, e)
    ensures S.Inv(Next(t, e).session) && S.Requested(Next(t, e).session) && E.Inv(Next(t, e).node)
  {
    hide S.Inv, S.Requested, E.Inv, S.Next, E.Next, Fit, RobotTrajectory.Take;
    var t' := Next(t, e);
    if t'.session != t.session {
      var request :| S.Enabled(t.session, request) && t'.session == S.Next(t.session, request);
      S.StepKeepsInv(t.session, request);
      S.StepKeepsRequested(t.session, request);
    }
    if t'.node != t.node {
      var frame :| E.Enabled(t.node, frame) && t'.node == E.Next(t.node, frame);
      E.StepKeepsInv(t.node, frame);
    }
  }

  lemma {:induction false} RunKeepsInv(states: seq<Task>, events: seq<Event>, k: nat)
    requires Run(states, events) && k < |states|
    ensures Coupled(states[k]) && E.Inv(states[k].node)
    ensures S.Inv(states[k].session) && S.Requested(states[k].session)
    decreases k
  {
    hide S.Inv, S.Requested, E.Inv, Coupled, Next, Enabled, Initial;
    if k == 0 {
      InitialHolds(states[0]);
    } else {
      RunKeepsInv(states, events, k - 1);
      assert Enabled(states[k - 1], events[k - 1]) && states[k] == Next(states[k - 1], events[k - 1]);
      StepKeepsCoupled(states[k - 1], events[k - 1]);
      StepKeepsParts(states[k - 1], events[k - 1]);
    }
  }

  // ------------------------------------------------------------------- the results

  lemma HeldTargetsMoveAll(image: Image, target: Target)
    requires HoldsTargets(image, target)
    ensures AllControlwords(image, CONTROLWORD_MOVE)
  {
    forall k | 0 <= k < AXIS_COUNT ensures image[k].controlword == CONTROLWORD_MOVE {
      SlotsAndJoints(k);
      assert image[JointSlot(SlotJoint(k))].controlword == CONTROLWORD_MOVE;
    }
  }

  // Whenever an exchange confirms a point, the image it sent held that point's six targets
  // with controlword 0x001F and mode 8 on every axis, the drives had been brought to motion,
  // and that for an enable request accepted in this session.
  lemma ConfirmedInOperation(states: seq<Task>, events: seq<Event>, k: nat)
    requires Run(states, events) && k < |events| && events[k].Exchanged?
    requires Confirm(states[k].node.dev, events[k].cycle).1
    ensures
      var t := states[k];
      && |t.node.log| < |t.node.accepted|
      && HoldsTargets(t.node.image, t.node.accepted[|t.node.log|].target)
      && AllControlwords(t.node.image, CONTROLWORD_MOVE) && AllModes(t.node.image, MODE_CSP)
      && t.session.alive && t.session.rt.drive == TEST && t.session.accepts > 0
  {
    RunKeepsInv(states, events, k);
    var t := states[k];
    assert Enabled(t, events[k]);
    hide Run, HoldsTargets, S.SlotOk, E.LogMatches, AllControlwords, AllModes;
    HeldTargetsMoveAll(t.node.image, t.node.accepted[|t.node.log|].target);
  }

  lemma StepMovesNothing(t: Task, e: Event)
    requires S.Inv(t.session) && Enabled(t, e) && t.session.alive && Next(t, e).session.alive
    requires S.SomeAxisMoves(Next(t, e).session.rt.image) && !e.Commits?
    ensures S.SomeAxisMoves(t.session.rt.image)
  {
    hide S.Inv, S.SomeAxisMoves, S.Next, E.Next, Fit, RobotTrajectory.Take;
    if Next(t, e).session != t.session {
      var request :| && S.Enabled(t.session, request) && Next(t, e).session == S.Next(t.session, request)
                     && !S.PlacesPoint(t.session, request);
      S.MoveNeedsPoint(t.session, request);
    }
  }

  lemma CommitHolds(t: Task)
    requires Enabled(t, Commits)
    ensures t.node.pc.ReadyToCommit?
    ensures HoldsTargets(Next(t, Commits).node.image, t.node.pc.point.target)
  {
    E.CommitHolds(t.node);
    hide S.Next, E.Next, HoldsTargets, Handled, Fit;
  }

  // The move controlword is staged only together with the six targets of a point the buffer
  // had staged, in the step that commits it.
  lemma OnlyPointsMove(states: seq<Task>, events: seq<Event>, k: nat)
    requires Run(states, events) && k < |events|
    requires states[k].session.alive && states[k + 1].session.alive
    requires !S.SomeAxisMoves(states[k].node.image) && S.SomeAxisMoves(states[k + 1].node.image)
    ensures events[k].Commits? && states[k].node.pc.ReadyToCommit?
    ensures HoldsTargets(states[k + 1].node.image, states[k].node.pc.point.target)
  {
    RunKeepsInv(states, events, k);
    RunKeepsInv(states, events, k + 1);
    hide S.Inv, E.Inv, S.Requested, Next, Enabled, S.SomeAxisMoves, HoldsTargets, Initial;
    assert Enabled(states[k], events[k]) && states[k + 1] == Next(states[k], events[k]);
    if events[k].Commits? {
      CommitHolds(states[k]);
    } else {
      StepMovesNothing(states[k], events[k]);
    }
    hide Run;
  }

  // The buffer is emptied and on hold.
  predicate OnHold(n: E.Node) { n.dev.state == HOLD && n.dev.queue == [] && n.dev.staged == None }

  lemma FaultHolds(n: E.Node, e: E.Event)
    requires E.Enabled(n, e) && e.TestFault?
    ensures OnHold(E.Next(n, e)) && E.Next(n, e).image == e.faultImage
  {
  }

  lemma QuicklyStopped(t: Task, e: Event)
    requires S.Inv(t.session) && Coupled(t) && Enabled(t, e) && e.StopsQuickly?
    ensures OnHold(Next(t, e).node) && Next(t, e).node.image == Next(t, e).session.rt.image
    ensures D.GoesTo(Next(t, e).session, TEST, 0x000B)
  {
    var s' := Handled(t, QuickStop);
    D.StopHolds(t.session, S.GoodExchange(t.inputs, t.nowUs, QuickStop));
    hide D.AllShow, D.SomeFault, Fit, S.Inv, S.Next, AllControlwords, E.Next;
    FaultHolds(t.node, Stopped(s', e.reason));
  }

  lemma UnfitStopped(t: Task, e: Event)
    requires S.Inv(t.session) && Coupled(t) && Enabled(t, e) && e.FindsUnfit?
    requires !D.AllShow(t.inputs, 0x006F, 0x0027)
    ensures OnHold(Next(t, e).node) && Next(t, e).node.image == Next(t, e).session.rt.image
    ensures D.Dropped(Next(t, e).session, t.inputs)
  {
    var s' := Handled(t, KeepTargets);
    D.StopHolds(t.session, S.GoodExchange(t.inputs, t.nowUs, KeepTargets));
    hide D.AllShow, D.SomeFault, Fit, S.Inv, S.Next, AllControlwords, E.Next;
    FaultHolds(t.node, Stopped(s', e.reason));
  }

  // In motion an axis seen out of Operation Enabled stops the whole task, whatever the buffer
  // would have offered: the drives fall back, by a fault to 0x0000 on all axes and otherwise to
  // 0x0007, and the buffer is emptied and on hold.
  lemma MotionStops(states: seq<Task>, events: seq<Event>, k: nat)
    requires Run(states, events) && k < |events|
    requires events[k].FindsUnfit? || events[k].FindsSilence? || events[k].Takes?
    requires exists i :: 0 <= i < 6 && states[k].inputs[i].statusword & 0x006F != 0x0027
    ensures
      var t, t' := states[k], states[k + 1];
      && events[k].FindsUnfit?
      && t'.session.alive && OnHold(t'.node) && !t'.session.rt.enableRequest
      && t'.session.rt.stateCycles == 0 && t'.session.rt.stableCycles == 0
      && if exists i :: 0 <= i < 6 && t.inputs[i].statusword & 0x0008 != 0
         then t'.session.rt.drive == CW06_ROLLBACK_ZERO && forall i :: 0 <= i < 6 ==> t'.node.image[i].controlword == 0
         else t'.session.rt.drive == CW0F_ROLLBACK_CW07 && forall i :: 0 <= i < 6 ==> t'.node.image[i].controlword == 7
  {
    RunKeepsInv(states, events, k);
    var t, e := states[k], events[k];
    assert Enabled(t, e) && states[k + 1] == Next(t, e);
    D.Shows(t.inputs, 0x006F, 0x0027);
    hide Run, Next, S.Inv, S.Requested, E.Inv, Coupled, AllMatch;
    UnfitStopped(t, e);
  }

  // A quick stop request comes before everything else in motion: 0x000B on all axes, the
  // buffer emptied and on hold, and the drives stay in motion.
  lemma QuickStopHolds(states: seq<Task>, events: seq<Event>, k: nat)
    requires Run(states, events) && k < |events| && events[k].StopsQuickly?
    ensures
      var t' := states[k + 1];
      && t'.session.alive && t'.session.rt.drive == TEST
      && OnHold(t'.node)
      && forall i :: 0 <= i < 6 ==> t'.node.image[i].controlword == 0x000B
  {
    RunKeepsInv(states, events, k);
    assert Enabled(states[k], events[k]) && states[k + 1] == Next(states[k], events[k]);
    hide Run, Next, Enabled, S.Inv, S.Requested, E.Inv, Coupled;
    QuicklyStopped(states[k], events[k]);
  }
}
