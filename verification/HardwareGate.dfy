// The ros2_control component's gate in front of the scheduler: read cycles watch the
// communication, write cycles submit targets, and a reset service reopens the gate.
//
// Read and write run on one thread, but each is several critical sections, and the
// scheduler's worker, the services and the receive thread run between them. `Gate` takes
// those sections one at a time; `Hardware` is the object whose methods run them.
module HardwareGate {
  import opened Words
  import opened CspScheduler

  // What one read cycle loads. The feedback is read under the state mutex, so its age is
  // the same throughout; the bus-off flag is an atomic that the receive thread may change
  // between the three loads.
  datatype Look = Look(
    feedbackFresh: bool, offAtReady: bool, offAtMotion: bool, offAtAct: bool, axesReady: bool, driveFault: bool)

  predicate Ready(l: Look) { l.feedbackFresh && !l.offAtReady }

  predicate MotionEnabled(l: Look) { l.feedbackFresh && !l.offAtMotion && l.axesReady }

  predicate DeviceFault(l: Look) { l.offAtAct || l.driveFault }

  // Where the controller thread is.
  datatype Control =
    | Between
    // the latch is stored, the scheduler's gate not yet set
    | Gating(look: Look, lossStarted: bool)
    | Reading(look: Look, lossStarted: bool)
    | Acting(look: Look, lossStarted: bool, abortNow: bool)
    | Writing(newCommand: bool)
    | Starting
    | Submitting
    | Aborting
    | Ending

  datatype Gate = Gate(
    cfg: Config, host: Host, pending: Action, control: Control,
    active: bool, latched: bool, lossActive: bool)

  datatype Event =
    // controller thread
    | ReadBegin(look: Look)
    | ReadGate
    | ReadLook
    | ReadAct
    | WriteBegin(inRange: bool, changed: bool)
    | WriteLook
    | WriteStart
    | WriteSubmit(converts: bool, target: Target)
    | WriteAbort
    | WriteFinish(goalReached: bool)
    // services and the receive thread
    | Reset(ready: bool)
    | ControlStop
    | RemoteStatus(status: Status)
    | Activate
    | Deactivate
    // the scheduler's worker
    | WorkerDecides(clock: Clock)
    | WorkerCompletes(sent: bool)

  predicate StreamActive(s: Stream) {
    s == StartPending || s == ResetAwaitingAck || s == Streaming || s == Finishing
  }

  predicate BlocksWrites(s: Stream) { s == Finishing || s == ResetRequired || s == Fault }

  predicate MidRead(c: Control) { c.Gating? || c.Reading? || c.Acting? }

  predicate MidWrite(c: Control) {
    c.Writing? || c.Starting? || c.Submitting? || c.Aborting? || c.Ending?
  }

  predicate Enabled(g: Gate, e: Event) {
    match e
    case ReadBegin(_) => g.control.Between? && g.active
    case ReadGate => g.control.Gating?
    case ReadLook => g.control.Reading?
    case ReadAct => g.control.Acting?
    case WriteBegin(_, _) => g.control.Between? && g.active
    case WriteLook => g.control.Writing?
    case WriteStart => g.control.Starting?
    case WriteSubmit(_, _) => g.control.Submitting?
    case WriteAbort => g.control.Aborting?
    case WriteFinish(_) => g.control.Ending?
    // the state mutex keeps the service out of a read cycle
    case Reset(_) => !MidRead(g.control)
    case ControlStop => true
    case RemoteStatus(_) => true
    case Activate => g.control.Between? && !g.active
    case Deactivate => g.control.Between? && g.active
    case WorkerDecides(_) => g.pending.NoAction?
    case WorkerCompletes(_) => !g.pending.NoAction?
  }

  function BeginRead(g: Gate, look: Look): Gate {
    var lossStarted := !Ready(look) && !g.lossActive;
    g.(latched := g.latched || lossStarted, lossActive := !Ready(look), control := Gating(look, lossStarted))
  }

  function SetGate(g: Gate): Gate
    requires g.control.Gating?
  {
    g.(host := SetEnabled(g.host, MotionEnabled(g.control.look)),
       control := Reading(g.control.look, g.control.lossStarted))
  }

  function LookAtStream(g: Gate): Gate
    requires g.control.Reading?
  {
    var c := g.control;
    g.(control := Acting(c.look, c.lossStarted, !MotionEnabled(c.look) && StreamActive(g.host.stream)))
  }

  function ActOnStream(g: Gate): Gate
    requires g.control.Acting?
  {
    var c := g.control;
    g.(control := Between,
       host := if c.look.offAtAct then MarkFault(g.host)
               else if c.lossStarted then AbortTrajectory(g.host)
               else if c.abortNow then (if DeviceFault(c.look) then MarkFault(g.host) else AbortTrajectory(g.host))
               else g.host)
  }

  function BeginWrite(g: Gate, inRange: bool, changed: bool): Gate {
    if !inRange then g.(host := MarkFault(g.host))
    else if g.latched then g
    else g.(control := Writing(changed))
  }

  function LookBeforeWrite(g: Gate): Gate
    requires g.control.Writing?
  {
    if BlocksWrites(g.host.stream) then g.(control := Between)
    else if g.control.newCommand && (g.host.stream == Idle || g.host.stream == Holding) then g.(control := Starting)
    else g.(control := Submitting)
  }

  function StartForWrite(g: Gate): Gate {
    var (h, started) := StartTrajectory(g.host);
    g.(host := h, control := if started then Submitting else Aborting)
  }

  function SubmitForWrite(g: Gate, converts: bool, target: Target): Gate
  {
    if !converts then g.(host := MarkFault(g.host), control := Between)
    else
      var (h, taken) := Submit(g.cfg, g.host, target, true);
      g.(host := h, control := if taken then Ending else Aborting)
  }

  function FinishForWrite(g: Gate, goalReached: bool): Gate {
    g.(control := Between,
       host := if goalReached && g.host.stream == Streaming then FinishTrajectory(g.host).0 else g.host)
  }

  function ResetTrajectory(g: Gate, ready: bool): Gate {
    if !g.active || !ready then g
    else
      var (h, result) := RecoverTrajectory(g.host);
      if result == Recovered then g.(host := h, latched := false) else g
  }

  // The sections of a read cycle run back to back.
  function ReadCycle(g: Gate, look: Look): Gate {
    ActOnStream(LookAtStream(SetGate(BeginRead(g, look))))
  }

  // What such a cycle makes of the scheduler.
  function Watched(h: Host, lossStarted: bool, look: Look): Host {
    var told := SetEnabled(h, MotionEnabled(look));
    var abortNow := !MotionEnabled(look) && StreamActive(told.stream);
    if look.offAtAct || (!lossStarted && abortNow && DeviceFault(look)) then MarkFault(told)
    else if lossStarted || abortNow then AbortTrajectory(told)
    else told
  }

  lemma ReadCycleWatches(g: Gate, look: Look)
    requires g.control.Between?
    ensures ReadCycle(g, look) ==
            g.(latched := g.latched || (!Ready(look) && !g.lossActive), lossActive := !Ready(look),
               host := Watched(g.host, !Ready(look) && !g.lossActive, look))
  {
    hide MarkFault, AbortTrajectory;
  }

  // The sections of a write cycle run back to back.
  function WriteCycle(g: Gate, inRange: bool, newCommand: bool, converts: bool, target: Target, goalReached: bool)
    : Gate
  {
    var g1 := BeginWrite(g, inRange, newCommand);
    var g2 := if g1.control.Writing? then LookBeforeWrite(g1) else g1;
    var g3 := if g2.control.Starting? then StartForWrite(g2) else g2;
    var g4 := if g3.control.Submitting? then SubmitForWrite(g3, converts, target) else g3;
    if g4.control.Aborting? then g4.(host := AbortTrajectory(g4.host), control := Between)
    else if g4.control.Ending? then FinishForWrite(g4, goalReached)
    else g4
  }

  // What such a cycle makes of the scheduler.
  function Written(c: Config, h: Host, converts: bool, target: Target, goalReached: bool): Host {
    if !converts then MarkFault(h)
    else
      var (submitted, taken) := Submit(c, h, target, true);
      if !taken then AbortTrajectory(submitted)
      else if goalReached && submitted.stream == Streaming then FinishTrajectory(submitted).0
      else submitted
  }

  function WrittenWhenOpen(c: Config, h: Host, newCommand: bool, converts: bool, target: Target, goalReached: bool)
    : Host
  {
    if BlocksWrites(h.stream) then h
    else if newCommand && (h.stream == Idle || h.stream == Holding) then
      var (started, ok) := StartTrajectory(h);
      if ok then Written(c, started, converts, target, goalReached) else AbortTrajectory(started)
    else Written(c, h, converts, target, goalReached)
  }

  lemma WriteCycleWrites(g: Gate, inRange: bool, newCommand: bool, converts: bool, target: Target, goalReached: bool)
    requires g.control.Between?
    ensures WriteCycle(g, inRange, newCommand, converts, target, goalReached) ==
            g.(host := if !inRange then MarkFault(g.host)
                       else if g.latched then g.host
                       else WrittenWhenOpen(g.cfg, g.host, newCommand, converts, target, goalReached))
  {
    hide MarkFault, AbortTrajectory, Submit, StartTrajectory, FinishTrajectory;
  }

  function Next(g: Gate, e: Event): Gate
    requires Enabled(g, e)
  {
    match e
    case ReadBegin(look) => BeginRead(g, look)
    case ReadGate => SetGate(g)
    case ReadLook => LookAtStream(g)
    case ReadAct => ActOnStream(g)
    case WriteBegin(inRange, changed) => BeginWrite(g, inRange, changed)
    case WriteLook => LookBeforeWrite(g)
    case WriteStart => StartForWrite(g)
    case WriteSubmit(converts, target) => SubmitForWrite(g, converts, target)
    case WriteAbort => g.(host := AbortTrajectory(g.host), control := Between)
    case WriteFinish(goalReached) => FinishForWrite(g, goalReached)
    case Reset(ready) => ResetTrajectory(g, ready)
    case ControlStop => g.(host := AbortTrajectory(g.host))
    case RemoteStatus(status) => g.(host := UpdateRemote(g.host, status))
    case Activate => g.(active := true, latched := false, lossActive := false)
    case Deactivate =>
      g.(active := false, latched := false, lossActive := false, host := SetEnabled(AbortTrajectory(g.host), false))
    case WorkerDecides(t) =>
      var (h, action) := Decide(g.cfg, g.host, t);
      g.(host := h, pending := action)
    case WorkerCompletes(sent) =>
      g.(host := Complete(if sent then NextSequence(g.host) else g.host, g.pending, sent, g.host.nextSequence),
         pending := NoAction)
  }

  function Start(cfg: Config): Gate { Gate(cfg, Init(), NoAction, Between, false, false, false) }

  predicate Run(states: seq<Gate>, events: seq<Event>) {
    && |states| == |events| + 1
    && states[0] == Start(states[0].cfg)
    && forall i :: 0 <= i < |events| ==>
         Enabled(states[i], events[i]) && states[i + 1] == Next(states[i], events[i])
  }

  // ---------------------------------------------------------------- the invariant

  predicate AfterHold(s: Stream) { s == ResetRequired || s == Fault }

  // Nothing but a HOLD can still be decided.
  predicate Shut(h: Host) { AfterHold(h.stream) || (h.stream == Finishing && AfterHold(h.terminal)) }

  // The first read of a loss has latched but not yet stopped the stream.
  predicate ClosingNow(c: Control) { (c.Gating? || c.Reading? || c.Acting?) && c.lossStarted }

  // The part of it in which the scheduler's own gate may still be open: before it is set,
  // and after it was set open because the bus-off flag went away between its two loads.
  predicate InWindow(c: Control) { ClosingNow(c) && (c.Gating? || MotionEnabled(c.look)) }

  predicate Inv(g: Gate) {
    && (g.latched ==> g.active && !MidWrite(g.control) && (Shut(g.host) || ClosingNow(g.control)))
    && (ClosingNow(g.control) ==> g.latched && !Ready(g.control.look))
    && (ClosingNow(g.control) && !InWindow(g.control) ==> !g.host.enabled)
    && (MidRead(g.control) ==> g.active)
    && (g.lossActive ==> g.active)
  }

  lemma ShutStaysShut(c: Config, h: Host, t: Clock, action: Action, sent: bool)
    requires Shut(h)
    ensures Shut(Decide(c, h, t).0) && Shut(Complete(h, action, sent, h.nextSequence))
    ensures !Decide(c, h, t).1.Apply? && !Decide(c, h, t).1.ResetApply?
  {
  }

  lemma StopShuts(h: Host)
    ensures Shut(MarkFault(h)) && Shut(AbortTrajectory(h))
  {
  }

  // The worker neither opens nor closes the scheduler's gate.
  lemma WorkerKeepsGate(g: Gate, e: Event)
    requires Enabled(g, e) && (e.WorkerDecides? || e.WorkerCompletes?)
    ensures Next(g, e).host.enabled == g.host.enabled
  {
  }

  lemma ShutKeepsInv(g: Gate, e: Event)
    requires Inv(g) && Enabled(g, e) && Shut(g.host)
    ensures Inv(Next(g, e))
  {
    StopShuts(g.host);
    match e {
      case WorkerDecides(t) =>
        WorkerKeepsGate(g, e);
        ShutStaysShut(g.cfg, g.host, t, NoAction, true);
      case WorkerCompletes(sent) =>
        WorkerKeepsGate(g, e);
        CompleteStaysShut(g.host, g.pending, sent);
      case _ =>
    }
    hide Decide, Complete, MarkFault, AbortTrajectory;
  }

  lemma OpenKeepsInv(g: Gate, e: Event)
    requires Inv(g) && Enabled(g, e) && !Shut(g.host)
    ensures Inv(Next(g, e))
  {
    StopShuts(g.host);
    if e.WorkerDecides? || e.WorkerCompletes? {
      WorkerKeepsGate(g, e);
    }
    hide Decide, Complete, MarkFault, AbortTrajectory;
  }

  lemma StepKeepsInv(g: Gate, e: Event)
    requires Inv(g) && Enabled(g, e)
    ensures Inv(Next(g, e))
  {
    hide Inv, Enabled, Next, Shut;
    if Shut(g.host) {
      ShutKeepsInv(g, e);
    } else {
      OpenKeepsInv(g, e);
    }
  }

  lemma CompleteStaysShut(h: Host, action: Action, sent: bool)
    requires Shut(h)
    ensures Shut(Complete(if sent then NextSequence(h) else h, action, sent, h.nextSequence))
  {
  }

  lemma {:induction false} RunKeepsInv(states: seq<Gate>, events: seq<Event>, k: nat)
    requires Run(states, events) && k < |states|
    ensures Inv(states[k])
    decreases k
  {
    if k > 0 {
      RunKeepsInv(states, events, k - 1);
      hide Inv, Next, Enabled;
      assert Enabled(states[k - 1], events[k - 1]) && states[k] == Next(states[k - 1], events[k - 1]);
      StepKeepsInv(states[k - 1], events[k - 1]);
    }
  }

  // ------------------------------------------------------------------- the results

  // The two ways the gate opens again.
  predicate Reopens(g: Gate, e: Event) {
    || e.Deactivate?
    || (e.Reset? && g.active && e.ready && RecoverTrajectory(g.host).1 == Recovered)
  }

  lemma LatchedUntilReopened(g: Gate, e: Event)
    requires Inv(g) && Enabled(g, e) && g.latched
    ensures Next(g, e).latched <==> !Reopens(g, e)
  {
    hide Decide;
  }

  // No event of these events, from `from` up to `to`, reopens the gate.
  predicate StaysClosed(states: seq<Gate>, events: seq<Event>, from: nat, to: nat)
    requires |states| == |events| + 1 && from <= to <= |events|
  {
    forall i :: from <= i < to ==> !Reopens(states[i], events[i])
  }

  lemma {:induction false} LatchLasts(states: seq<Gate>, events: seq<Event>, from: nat, to: nat)
    requires Run(states, events) && from <= to <= |events|
    requires states[from].latched && StaysClosed(states, events, from, to)
    ensures states[to].latched
    decreases (to as int) - (from as int)
  {
    if from < to {
      RunKeepsInv(states, events, from);
      assert Enabled(states[from], events[from]) && states[from + 1] == Next(states[from], events[from]);
      LatchedUntilReopened(states[from], events[from]);
      hide Inv, Next, Enabled, Reopens;
      LatchLasts(states, events, from + 1, to);
    }
  }

  predicate SeesLoss(g: Gate, e: Event) { e.ReadBegin? && !Ready(e.look) && !g.lossActive }

  predicate Moves(action: Action) { action.Apply? || action.ResetApply? }

  lemma ClosedGateHolds(c: Config, h: Host, t: Clock)
    requires !h.enabled
    ensures !Moves(Decide(c, h, t).1)
  {
  }

  // From the first read cycle that sees communication loss until a successful reset, no
  // write cycle starts a trajectory or submits a target, and, outside the window of that
  // first cycle, the worker decides only HOLD frames, whether or not feedback has returned.
  lemma LossClosesTheGate(states: seq<Gate>, events: seq<Event>, loss: nat, k: nat)
    requires Run(states, events) && loss < k < |events|
    requires SeesLoss(states[loss], events[loss])
    requires StaysClosed(states, events, loss + 1, k)
    ensures !events[k].WriteSubmit? && !events[k].WriteStart?
    ensures events[k].WorkerDecides? && !InWindow(states[k].control) ==>
      Next(states[k], events[k]).pending.NoAction? || Next(states[k], events[k]).pending.Hold?
    ensures !MidRead(states[k].control) ==> Shut(states[k].host)
  {
    assert states[loss + 1] == Next(states[loss], events[loss]);
    LatchLasts(states, events, loss + 1, k);
    RunKeepsInv(states, events, k);
    assert Enabled(states[k], events[k]);
    if events[k].WorkerDecides? && !InWindow(states[k].control) {
      if ClosingNow(states[k].control) {
        ClosedGateHolds(states[k].cfg, states[k].host, events[k].clock);
      } else {
        ShutStaysShut(states[k].cfg, states[k].host, events[k].clock, NoAction, true);
      }
    }
    hide Run, Decide;
  }

  // The window closes for good when the scheduler's gate is set, unless the bus was off at
  // the first load of the flag and on at the second, with everything else ready.
  lemma WindowIsBeforeTheGate(c: Control)
    requires ClosingNow(c) && !Ready(c.look)
    ensures InWindow(c) <==>
            c.Gating? || (c.look.feedbackFresh && c.look.axesReady && c.look.offAtReady && !c.look.offAtMotion)
  {
  }

  // Something that moves the arm can be decided at this host, whatever the clock says.
  predicate CanMove(c: Config, h: Host) {
    && h.enabled && h.remote.Some?
    && var s := h.remote.value;
       match h.stream
       case StartPending => |h.queue| >= START_PREFILL && AllowsReset(s)
       case Streaming =>
         && RemoteActive(s) && !s.resetRequired && !Latched(s)
         && s.generation == h.activeGeneration && s.events == h.activeEvents
         && s.capacity == EXPECTED_CAPACITY && s.prefill == EXPECTED_PREFILL
         && MayApply(c, s, h.credit)
         && (h.queue != [] || (h.lastSent.Some? && h.latest.Some?))
       case _ => false
  }

  const GOOD_CLOCK := Clock(true, true, true, false, false, true)

  lemma MovesOnlyIfItCan(c: Config, h: Host, t: Clock)
    ensures Moves(Decide(c, h, t).1) ==> CanMove(c, h)
  {
    hide MayApply, AllowsReset;
  }

  lemma MovesIfItCan(c: Config, h: Host)
    requires CanMove(c, h)
    ensures Moves(Decide(c, h, GOOD_CLOCK).1)
  {
    hide MayApply, AllowsReset;
  }

  // With the gate latched, some clock makes the worker decide an APPLY or a RESET exactly
  // in that window, at a host that can still move.
  lemma WindowExactly(states: seq<Gate>, events: seq<Event>, k: nat)
    requires Run(states, events) && k < |states| && states[k].latched
    ensures
      var g := states[k];
      (exists t :: Moves(Decide(g.cfg, g.host, t).1)) <==> InWindow(g.control) && CanMove(g.cfg, g.host)
  {
    RunKeepsInv(states, events, k);
    var g := states[k];
    forall t ensures Moves(Decide(g.cfg, g.host, t).1) ==> InWindow(g.control) && CanMove(g.cfg, g.host) {
      MovesOnlyIfItCan(g.cfg, g.host, t);
      if Shut(g.host) {
        ShutStaysShut(g.cfg, g.host, t, NoAction, true);
      } else if !g.host.enabled {
        ClosedGateHolds(g.cfg, g.host, t);
      }
    }
    if CanMove(g.cfg, g.host) {
      MovesIfItCan(g.cfg, g.host);
    }
    hide Run, Decide, CanMove;
  }

  // Submitting needs an open gate and a stream that has not ended.
  lemma SubmitsOnlyWhenOpen(states: seq<Gate>, events: seq<Event>, k: nat)
    requires Run(states, events) && k < |events| && (events[k].WriteSubmit? || events[k].WriteStart?)
    ensures !states[k].latched
  {
    RunKeepsInv(states, events, k);
    assert Enabled(states[k], events[k]);
  }

  // ------------------------------------------------------------------- the object

  class Hardware {
    const scheduler: Scheduler
    var active: bool
    var latched: bool
    var lossActive: bool

    // The gate as it stands between two calls.
    ghost function State(pending: Action): Gate
      reads this, scheduler
    {
      Gate(scheduler.config, scheduler.Abs(), pending, Between, active, latched, lossActive)
    }

    constructor (c: Config)
      requires ValidConfig(c)
      ensures fresh(scheduler) && State(NoAction) == Start(c)
    {
      scheduler := new Scheduler(c);
      active, latched, lossActive := false, false, false;
    }

    method WatchStream(lossStarted: bool, look: Look)
      modifies scheduler
      ensures scheduler.Abs() == Watched(old(scheduler.Abs()), lossStarted, look)
    {
      hide MarkFault, AbortTrajectory;
      var motionEnabled := MotionEnabled(look);
      scheduler.Enable(motionEnabled);
      var streamActive := StreamActive(scheduler.stream);
      if look.offAtAct {
        scheduler.RaiseFault();
      } else if lossStarted {
        scheduler.Abort();
      } else if !motionEnabled && streamActive {
        if DeviceFault(look) {
          scheduler.RaiseFault();
        } else {
          scheduler.Abort();
        }
      }
    }

    // One undisturbed read cycle.
    method Read(look: Look, ghost pending: Action)
      modifies this`latched, this`lossActive, scheduler
      ensures State(pending) ==
              if old(active) then ReadCycle(old(State(pending)), look) else old(State(pending))
    {
      ReadCycleWatches(State(pending), look);
      hide ReadCycle, Watched, Scheduler.Abs;
      if !active {
        return;
      }
      var lossStarted := false;
      if !Ready(look) {
        if !lossActive {
          lossActive, latched, lossStarted := true, true, true;
        }
      } else if lossActive {
        lossActive := false;
      }
      WatchStream(lossStarted, look);
    }

    // Hand one target to the scheduler; a full queue ends the stream.
    method SubmitTarget(converts: bool, target: Target, goalReached: bool)
      modifies scheduler
      ensures scheduler.Abs() == Written(scheduler.config, old(scheduler.Abs()), converts, target, goalReached)
    {
      hide MarkFault, AbortTrajectory, Submit, FinishTrajectory;
      if !converts {
        scheduler.RaiseFault();
        return;
      }
      var taken := scheduler.SubmitTarget(target, true);
      if !taken {
        scheduler.Abort();
      } else if scheduler.stream == Streaming && goalReached {
        var finished := scheduler.Finish();
      }
    }

    method WriteOpen(newCommand: bool, converts: bool, target: Target, goalReached: bool)
      modifies scheduler
      ensures scheduler.Abs() ==
              WrittenWhenOpen(scheduler.config, old(scheduler.Abs()), newCommand, converts, target, goalReached)
    {
      hide AbortTrajectory, StartTrajectory, Written;
      var stream := scheduler.stream;
      if BlocksWrites(stream) {
        return;
      }
      if newCommand && (stream == Idle || stream == Holding) {
        var started := scheduler.Start();
        if !started {
          scheduler.Abort();
          return;
        }
      }
      SubmitTarget(converts, target, goalReached);
    }

    // One undisturbed write cycle, from the range check to the submitted target.
    method Write(inRange: bool, newCommand: bool, converts: bool, target: Target, goalReached: bool,
                 ghost pending: Action)
      modifies scheduler
      ensures State(pending) ==
              if old(active) then WriteCycle(old(State(pending)), inRange, newCommand, converts, target, goalReached)
              else old(State(pending))
    {
      WriteCycleWrites(State(pending), inRange, newCommand, converts, target, goalReached);
      hide MarkFault, WriteCycle, WrittenWhenOpen, Scheduler.Abs;
      if active {
        if !inRange {
          scheduler.RaiseFault();
        } else if !latched {
          WriteOpen(newCommand, converts, target, goalReached);
        }
      }
    }

    method HandleTrajectoryReset(ready: bool, ghost pending: Action) returns (success: bool)
      modifies this`latched, scheduler
      ensures State(pending) == ResetTrajectory(old(State(pending)), ready)
      ensures success <==> old(active) && ready && RecoverTrajectory(old(scheduler.Abs())).1 == Recovered
    {
      if !active || !ready {
        return false;
      }
      var result := scheduler.Recover();
      if result != Recovered {
        return false;
      }
      latched := false;
      return true;
    }
  }
}
