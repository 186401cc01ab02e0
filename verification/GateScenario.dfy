// Runs of the gate in which a loss of communication is seen and the worker, in the window
// before the scheduler's own gate is closed, still sends the arm a point.
module GateScenario {
  import opened Words
  import opened CspScheduler
  import opened HardwareGate
  import RobotTrajectory

  // The run with one more event.
  lemma Then(states: seq<Gate>, events: seq<Event>, e: Event) returns (states': seq<Gate>, events': seq<Event>)
    requires Run(states, events) && Enabled(states[|events|], e)
    ensures states' == states + [Next(states[|events|], e)] && events' == events + [e]
    ensures Run(states', events')
  {
    hide Next, Enabled, Start;
    states', events' := states + [Next(states[|events|], e)], events + [e];
    forall i | 0 <= i < |events'| ensures Enabled(states'[i], events'[i])
      ensures states'[i + 1] == Next(states'[i], events'[i])
    {
      if i < |events| {
        assert states'[i] == states[i] && events'[i] == events[i] && states'[i + 1] == states[i + 1];
      }
    }
  }

  const ALL_WELL := Look(true, false, false, false, true, false)

  // Between cycles of an open gate, with `count` targets waiting for their RESET.
  predicate Collecting(g: Gate, count: nat) {
    && g.control.Between? && g.active && !g.latched && !g.lossActive && g.pending.NoAction?
    && g.host.enabled && g.host.stream == StartPending && |g.host.queue| == count && g.host.nextSequence == 0
  }

  // The gate is opened by a read cycle, and a write cycle starts the trajectory.
  lemma ReachFirst(c: Config, target: Target) returns (states: seq<Gate>, events: seq<Event>)
    requires ValidConfig(c)
    ensures Run(states, events) && states[|events|].cfg == c && Collecting(states[|events|], 1)
  {
    states, events := [Start(c)], [];
    assert Run(states, events);
    hide Run;
    states, events := Then(states, events, Activate);
    states, events := Then(states, events, ReadBegin(ALL_WELL));
    states, events := Then(states, events, ReadGate);
    states, events := Then(states, events, ReadLook);
    states, events := Then(states, events, ReadAct);
    states, events := Then(states, events, WriteBegin(true, true));
    states, events := Then(states, events, WriteLook);
    states, events := Then(states, events, WriteStart);
    states, events := Then(states, events, WriteSubmit(true, target));
    states, events := Then(states, events, WriteFinish(false));
  }

  lemma {:induction false} ReachCollected(c: Config, target: Target, count: nat)
      returns (states: seq<Gate>, events: seq<Event>)
    requires ValidConfig(c) && 0 < count <= START_PREFILL
    ensures Run(states, events) && states[|events|].cfg == c && Collecting(states[|events|], count)
    decreases count
  {
    if count == 1 {
      states, events := ReachFirst(c, target);
    } else {
      states, events := ReachCollected(c, target, count - 1);
      states, events := Then(states, events, WriteBegin(true, false));
      states, events := Then(states, events, WriteLook);
      states, events := Then(states, events, WriteSubmit(true, target));
      states, events := Then(states, events, WriteFinish(false));
    }
    hide Run;
  }

  // The device before the RESET, and after it has read the RESET.
  const BEFORE := Status(RobotTrajectory.IDLE, 0, EXPECTED_CAPACITY, EXPECTED_PREFILL, true, false, false,
                         None, None, 0, 0, 0, Events(0, 0, 0, 0))

  const AFTER := Status(RobotTrajectory.PREFILL, 1, EXPECTED_CAPACITY, EXPECTED_PREFILL, false, false, false,
                        Some(1), Some(0), 1, 1, 0, Events(0, 0, 0, 0))

  // Between cycles, streaming, with credit for another point.
  predicate Ongoing(g: Gate) {
    && g.control.Between? && g.active && !g.latched && !g.lossActive && g.pending.NoAction?
    && g.host.stream == Streaming && CanMove(g.cfg, g.host)
  }

  predicate Awaiting(h: Host) {
    && h.enabled && h.stream == ResetAwaitingAck && h.queue != []
    && h.generationBefore == 0 && h.pendingReset == 0
  }

  lemma AcknowledgedCanMove(c: Config, h: Host)
    requires ValidConfig(c) && c.high > 1 && Awaiting(h)
    ensures
      var (h', action) := Decide(c, UpdateRemote(h, AFTER), GOOD_CLOCK);
      action.NoAction? && h'.stream == Streaming && CanMove(c, h')
  {
    var told := UpdateRemote(h, AFTER);
    assert ResetAccepted(told.remote, told.generationBefore, told.pendingReset, GOOD_CLOCK);
  }

  lemma ReachReset(c: Config, target: Target) returns (states: seq<Gate>, events: seq<Event>)
    requires ValidConfig(c)
    ensures Run(states, events) && states[|events|].cfg == c
    ensures
      var g := states[|events|];
      && g.control.Between? && g.active && !g.latched && !g.lossActive && g.pending.NoAction?
      && Awaiting(g.host)
  {
    states, events := ReachCollected(c, target, START_PREFILL);
    states, events := Then(states, events, RemoteStatus(BEFORE));
    states, events := Then(states, events, WorkerDecides(GOOD_CLOCK));
    states, events := Then(states, events, WorkerCompletes(true));
    hide Run;
  }

  lemma ReachOngoing(c: Config, target: Target) returns (states: seq<Gate>, events: seq<Event>)
    requires ValidConfig(c) && c.high > 1
    ensures Run(states, events) && states[|events|].cfg == c && Ongoing(states[|events|])
  {
    states, events := ReachReset(c, target);
    AcknowledgedCanMove(c, states[|events|].host);
    hide Decide, UpdateRemote, CanMove, Awaiting;
    states, events := Then(states, events, RemoteStatus(AFTER));
    states, events := Then(states, events, WorkerDecides(GOOD_CLOCK));
    hide Run;
  }

  // The last event is a decision to move the arm, taken with the gate latched.
  predicate MovesBehindTheGate(states: seq<Gate>, events: seq<Event>)
    requires |states| == |events| + 1
  {
    && Run(states, events) && events != [] && events[|events| - 1].WorkerDecides?
    && states[|events| - 1].latched && Moves(states[|events|].pending)
  }

  // The first read cycle that sees the loss has stored the latch, and the worker decides
  // before the scheduler's gate is set.
  lemma DecidesBeforeTheGate(c: Config, target: Target) returns (states: seq<Gate>, events: seq<Event>)
    requires ValidConfig(c) && c.high > 1
    ensures |states| == |events| + 1 && MovesBehindTheGate(states, events)
    ensures events[|events| - 2..] == [ReadBegin(Look(false, false, false, false, true, false)),
                                       WorkerDecides(GOOD_CLOCK)]
  {
    states, events := ReachOngoing(c, target);
    MovesIfItCan(states[|events|].cfg, states[|events|].host);
    hide CanMove, Decide, Run;
    states, events := Then(states, events, ReadBegin(Look(false, false, false, false, true, false)));
    states, events := Then(states, events, WorkerDecides(GOOD_CLOCK));
  }

  // The bus is off at the first load of the flag and on again at the second: the latch is
  // stored and the scheduler's gate set open, and the worker decides before the abort.
  lemma DecidesAfterAFlicker(c: Config, target: Target) returns (states: seq<Gate>, events: seq<Event>)
    requires ValidConfig(c) && c.high > 1
    ensures |states| == |events| + 1 && MovesBehindTheGate(states, events)
    ensures events[|events| - 3..] == [ReadBegin(Look(true, true, false, false, true, false)), ReadGate,
                                       WorkerDecides(GOOD_CLOCK)]
  {
    states, events := ReachOngoing(c, target);
    MovesIfItCan(states[|events|].cfg, states[|events|].host);
    assert SetEnabled(states[|events|].host, true) == states[|events|].host;
    hide CanMove, Decide, Run;
    states, events := Then(states, events, ReadBegin(Look(true, true, false, false, true, false)));
    states, events := Then(states, events, ReadGate);
    states, events := Then(states, events, WorkerDecides(GOOD_CLOCK));
  }
}
