// What each section of the ros2_control component's cycles makes of the gate and of the
// scheduler behind it, over the runs of the gate.
module GateRules {
  import opened Words
  import opened CspScheduler
  import opened HardwareGate
  import opened CallRules
  import L = Link
  import opened HoldDiscipline

  // A stream that has a HOLD to send has sent a point before.
  predicate Sane(h: Host) {
    && (Moving(h.stream) || h.stream == Finishing ==> h.lastSent.Some?)
    && Terminal(h.terminal)
  }

  lemma DecideKeepsSane(c: Config, h: Host, t: Clock)
    requires Sane(h)
    ensures Sane(Decide(c, h, t).0)
  {
    if h.stream == Streaming {
      StreamingKeepsSane(c, h, t);
    }
    hide DecideStreaming, SafetyFault, ResetAccepted, AllowsReset;
  }

  lemma StreamingKeepsSane(c: Config, h: Host, t: Clock)
    requires Sane(h) && h.stream == Streaming
    ensures Sane(DecideStreaming(c, h, t).0)
  {
    hide RemoteFault, MayApply, SafetyFault;
  }

  lemma CompleteKeepsSane(h: Host, action: Action, sent: bool, sequence: U8)
    requires Sane(h)
    ensures Sane(Complete(h, action, sent, sequence))
  {
  }

  lemma ReadKeepsSane(g: Gate, e: Event)
    requires Sane(g.host) && Enabled(g, e) && (e.ReadBegin? || e.ReadGate? || e.ReadLook? || e.ReadAct?)
    ensures Sane(Next(g, e).host)
  {
    hide Decide, Complete, Credited, Submit;
  }

  lemma WriteKeepsSane(g: Gate, e: Event)
    requires Sane(g.host) && Enabled(g, e) && (e.WriteBegin? || e.WriteLook? || e.WriteStart? || e.WriteSubmit?)
    ensures Sane(Next(g, e).host)
  {
    hide Decide, Complete, Credited, AbortTrajectory, FinishTrajectory;
  }

  lemma OtherKeepsSane(g: Gate, e: Event)
    requires Sane(g.host) && Enabled(g, e) && !e.WorkerDecides? && !e.WorkerCompletes?
    requires !(e.ReadBegin? || e.ReadGate? || e.ReadLook? || e.ReadAct?)
    requires !(e.WriteBegin? || e.WriteLook? || e.WriteStart? || e.WriteSubmit?)
    ensures Sane(Next(g, e).host)
  {
    hide Decide, Complete, Credited, Submit, MarkFault;
  }

  lemma StepKeepsSane(g: Gate, e: Event)
    requires Sane(g.host) && Enabled(g, e)
    ensures Sane(Next(g, e).host)
  {
    if e.WorkerDecides? {
      DecideKeepsSane(g.cfg, g.host, e.clock);
      hide Decide, Sane;
    } else if e.WorkerCompletes? {
      WorkerKeepsSane(g, e);
      hide Next, Sane;
    } else {
      hide Next, Sane;
      if e.ReadBegin? || e.ReadGate? || e.ReadLook? || e.ReadAct? { ReadKeepsSane(g, e); }
      else if e.WriteBegin? || e.WriteLook? || e.WriteStart? || e.WriteSubmit? { WriteKeepsSane(g, e); }
      else { OtherKeepsSane(g, e); }
    }
  }

  lemma WorkerKeepsSane(g: Gate, e: Event)
    requires Sane(g.host) && Enabled(g, e) && e.WorkerCompletes?
    ensures Sane(Next(g, e).host)
  {
    CompleteKeepsSane(if e.sent then NextSequence(g.host) else g.host, g.pending, e.sent, g.host.nextSequence);
    hide Complete;
  }

  lemma {:induction false} RunIsSane(states: seq<Gate>, events: seq<Event>, k: nat)
    requires Run(states, events) && k < |states|
    ensures Sane(states[k].host)
    decreases k
  {
    if k > 0 {
      RunIsSane(states, events, k - 1);
      hide Next, Enabled, Sane;
      assert Enabled(states[k - 1], events[k - 1]) && states[k] == Next(states[k - 1], events[k - 1]);
      StepKeepsSane(states[k - 1], events[k - 1]);
    }
  }

  // The call was made on the scheduler.
  predicate Calls(g: Gate, call: L.Call, g': Gate) { Outcome(g.cfg, g.host, call, g'.host) }

  predicate OnlyHost(g: Gate, g': Gate, control: Control) { g' == g.(host := g'.host, control := control) }

  // Feedback is missing, or the bus was off at the first look.
  predicate Lost(look: Look) { !look.feedbackFresh || look.offAtReady }

  predicate MayMove(look: Look) { look.feedbackFresh && !look.offAtMotion && look.axesReady }

  predicate Busy(stream: Stream) { Accepting(stream) || stream == Finishing }

  predicate ReadOutcome(g: Gate, e: Event, g': Gate) {
    match e
    case ReadBegin(look) =>
      var started := Lost(look) && !g.lossActive;
      g' == g.(latched := g.latched || started, lossActive := Lost(look), control := Gating(look, started))
    case ReadGate =>
      g.control.Gating? &&
      g' == g.(host := g.host.(enabled := MayMove(g.control.look)),
               control := Reading(g.control.look, g.control.lossStarted))
    case ReadLook =>
      g.control.Reading? &&
      g' == g.(control := Acting(g.control.look, g.control.lossStarted,
                                 !MayMove(g.control.look) && Busy(g.host.stream)))
    case ReadAct =>
      && g.control.Acting? && OnlyHost(g, g', Between)
      && if g.control.look.offAtAct then Calls(g, L.CallFault, g')
         else if g.control.lossStarted then Calls(g, L.CallAbort, g')
         else if g.control.abortNow then Calls(g, if g.control.look.driveFault then L.CallFault else L.CallAbort, g')
         else g'.host == g.host
    case _ => true
  }

  predicate WriteOutcome(g: Gate, e: Event, g': Gate) {
    match e
    case WriteBegin(inRange, changed) =>
      if !inRange then Calls(g, L.CallFault, g') && OnlyHost(g, g', g.control)
      else if g.latched then g' == g
      else g' == g.(control := Writing(changed))
    case WriteLook =>
      g.control.Writing? &&
      g' == g.(control := if g.host.stream == Finishing || g.host.stream == ResetRequired || g.host.stream == Fault
                          then Between
                          else if g.control.newCommand && (g.host.stream == Idle || g.host.stream == Holding)
                          then Starting else Submitting)
    case WriteStart =>
      && Calls(g, L.CallStart, g')
      && OnlyHost(g, g', if g.host.enabled && g.host.stream != Fault then Submitting else Aborting)
    case WriteSubmit(converts, target) =>
      if !converts then Calls(g, L.CallFault, g') && OnlyHost(g, g', Between)
      else
        && Calls(g, L.CallSubmit(target, true), g')
        && OnlyHost(g, g', if Accepting(g.host.stream) && |g.host.queue| >= g.cfg.capacity then Aborting else Ending)
    case WriteAbort => Calls(g, L.CallAbort, g') && OnlyHost(g, g', Between)
    case WriteFinish(goalReached) =>
      && OnlyHost(g, g', Between)
      && if goalReached && g.host.stream == Streaming then Calls(g, L.CallFinish, g') else g'.host == g.host
    case _ => true
  }

  predicate ServiceOutcome(g: Gate, e: Event, g': Gate) {
    match e
    case Reset(ready) =>
      if g.active && ready && g.host.enabled && (g.host.stream == ResetRequired || g.host.stream == Fault)
      then Calls(g, L.CallRecover, g') && g' == g.(host := g'.host, latched := false)
      else g' == g
    case ControlStop => Calls(g, L.CallAbort, g') && OnlyHost(g, g', g.control)
    case Activate => g' == g.(active := true, latched := false, lossActive := false)
    case Deactivate =>
      && !g'.active && !g'.latched && !g'.lossActive && !g'.host.enabled
      && Outcome(g.cfg, g.host, L.CallAbort, g'.host.(enabled := g.host.enabled))
    case _ => true
  }

  lemma ReadHolds(g: Gate, e: Event)
    requires Sane(g.host) && Enabled(g, e)
    ensures ReadOutcome(g, e, Next(g, e))
  {
    CallHolds(g.cfg, g.host, L.CallFault);
    CallHolds(g.cfg, g.host, L.CallAbort);
    hide Decide, Complete, UpdateRemote, Submit, StartTrajectory, RecoverTrajectory, FinishTrajectory, MarkFault,
         AbortTrajectory, Outcome;
  }

  lemma StartHolds(g: Gate, e: Event)
    requires Sane(g.host) && Enabled(g, e) && e.WriteStart?
    ensures WriteOutcome(g, e, Next(g, e))
  {
    CallHolds(g.cfg, g.host, L.CallStart);
    CallAnswers(g.cfg, g.host, [0, 0, 0, 0, 0, 0], true);
    hide StartTrajectory, Outcome;
  }

  lemma SubmitHolds(g: Gate, e: Event)
    requires Sane(g.host) && Enabled(g, e) && e.WriteSubmit?
    ensures WriteOutcome(g, e, Next(g, e))
  {
    CallHolds(g.cfg, g.host, L.CallFault);
    CallHolds(g.cfg, g.host, L.CallSubmit(e.target, true));
    CallAnswers(g.cfg, g.host, e.target, true);
    hide MarkFault, Submit, Outcome;
  }

  lemma WriteHolds(g: Gate, e: Event)
    requires Sane(g.host) && Enabled(g, e)
    ensures WriteOutcome(g, e, Next(g, e))
  {
    if e.WriteStart? {
      StartHolds(g, e);
    } else if e.WriteSubmit? {
      SubmitHolds(g, e);
    } else {
      WriteAroundHolds(g, e);
    }
    hide WriteOutcome, Next, Enabled;
  }

  lemma WriteAroundHolds(g: Gate, e: Event)
    requires Sane(g.host) && Enabled(g, e) && !e.WriteStart? && !e.WriteSubmit?
    ensures WriteOutcome(g, e, Next(g, e))
  {
    CallHolds(g.cfg, g.host, L.CallFault);
    CallHolds(g.cfg, g.host, L.CallAbort);
    CallHolds(g.cfg, g.host, L.CallFinish);
    hide Decide, Complete, UpdateRemote, RecoverTrajectory, MarkFault, AbortTrajectory, StartTrajectory, Submit,
         FinishTrajectory, Outcome;
  }

  lemma ServiceHolds(g: Gate, e: Event)
    requires Sane(g.host) && Enabled(g, e)
    ensures ServiceOutcome(g, e, Next(g, e))
  {
    CallHolds(g.cfg, g.host, L.CallAbort);
    CallHolds(g.cfg, g.host, L.CallRecover);
    hide Decide, Complete, UpdateRemote, Submit, StartTrajectory, FinishTrajectory, MarkFault, AbortTrajectory,
         Outcome;
  }

  // Each section of a read, of a write and of a service does exactly this.
  lemma GateRule(states: seq<Gate>, events: seq<Event>, k: nat)
    requires Run(states, events) && k < |events|
    ensures ReadOutcome(states[k], events[k], states[k + 1])
    ensures WriteOutcome(states[k], events[k], states[k + 1])
    ensures ServiceOutcome(states[k], events[k], states[k + 1])
  {
    RunIsSane(states, events, k);
    assert Enabled(states[k], events[k]) && states[k + 1] == Next(states[k], events[k]);
    hide Run, Next, Enabled, Sane, ReadOutcome, WriteOutcome, ServiceOutcome;
    ReadHolds(states[k], events[k]);
    WriteHolds(states[k], events[k]);
    ServiceHolds(states[k], events[k]);
  }
}
