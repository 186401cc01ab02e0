// Runs of the joined system, step by step and for any configuration: how a stream is
// brought to its RESET and on to streaming.
module Scenario {
  import opened Words
  import opened RobotTrajectory
  import opened CspScheduler
  import opened Link
  import E = Execution
  import Pdo

  lemma RunGrows(states: seq<Sys>, events: seq<Event>, e: Event)
    requires Run(states, events) && Enabled(states[|events|], e)
    ensures Run(states + [Next(states[|events|], e)], events + [e])
  {
    hide Next, Enabled, Initial;
    var s2, e2 := states + [Next(states[|events|], e)], events + [e];
    forall i | 0 <= i < |e2| ensures Enabled(s2[i], e2[i]) && s2[i + 1] == Next(s2[i], e2[i]) {
      if i < |events| {
        assert s2[i] == states[i] && e2[i] == events[i] && s2[i + 1] == states[i + 1];
      }
    }
  }

  // The run with one more event.
  lemma Then(states: seq<Sys>, events: seq<Event>, e: Event) returns (states': seq<Sys>, events': seq<Event>)
    requires Run(states, events) && Enabled(states[|events|], e)
    ensures states' == states + [Next(states[|events|], e)] && events' == events + [e]
    ensures Run(states', events')
  {
    RunGrows(states, events, e);
    states', events' := states + [Next(states[|events|], e)], events + [e];
    hide Run, Next, Enabled;
  }

  // Neither a frame nor the EtherCAT task has reached the node.
  predicate Untouched(n: E.Node) {
    n.pc.AtExchange? && !n.test && n.log == [] && n.dev == RobotTrajectory.Init()
  }

  // The device is known to be idle and accepted targets wait; `missing` more make twelve.
  predicate Collecting(s: Sys, missing: nat) {
    && ValidConfig(s.cfg)
    && s.host.enabled && s.host.stream == StartPending && |s.host.queue| + missing == START_PREFILL
    && s.host.remote.Some? && AllowsReset(s.host.remote.value) && s.host.remote.value.generation == 0
    && s.pending.Quiet? && s.channel == [] && s.sent == [] && s.host.nextSequence == 0 && s.statuses == []
    && Untouched(s.node) && s.known.Some? && s.known.value.received == 0
  }

  lemma {:induction false} FillQueue(states: seq<Sys>, events: seq<Event>, target: RobotTrajectory.Target, n: nat)
      returns (states': seq<Sys>, events': seq<Event>)
    requires Run(states, events) && Collecting(states[|events|], n)
    ensures Run(states', events') && Collecting(states'[|events'|], 0)
    ensures states'[|events'|].cfg == states[|events|].cfg
    decreases n
  {
    states', events' := states, events;
    if n > 0 {
      states', events' := Then(states, events, HostCall(CallSubmit(target, true)));
      states', events' := FillQueue(states', events', target, n - 1);
    }
  }

  lemma ReachReadyToReset(c: Config, target: RobotTrajectory.Target, node: E.Node)
      returns (states: seq<Sys>, events: seq<Event>)
    requires ValidConfig(c) && node == E.Start(node.image)
    ensures Run(states, events) && Collecting(states[|events|], 0) && states[|events|].cfg == c
  {
    states, events := [Link.Start(c, node)], [];
    assert Run(states, events);
    hide Run, Initial;
    states, events := Then(states, events, HostCall(CallEnable(true)));
    states, events := Then(states, events, Report(false, false));
    states, events := Then(states, events, StatusArrives);
    states, events := Then(states, events, HostCall(CallStart));
    states, events := FillQueue(states, events, target, START_PREFILL);
  }

  // The RESET is sent and read.
  lemma ReachResetRead(c: Config, target: RobotTrajectory.Target, node: E.Node)
      returns (states: seq<Sys>, events: seq<Event>)
    requires ValidConfig(c) && node == E.Start(node.image)
    ensures Run(states, events) && states[|events|].cfg == c
    ensures
      var s := states[|events|];
      && s.host.stream == ResetAwaitingAck && s.host.enabled && s.pending.Quiet? && s.channel == []
      && |s.sent| == 1 && s.sent[0].kind.ResetFrame? && s.received == 1
      && s.statuses == [] && s.host.generationBefore == 0 && s.host.pendingReset == 0
      && |s.host.queue| == START_PREFILL - 1 && s.host.nextSequence == 1 && FreshNode(s.node)
      && s.node.dev.state == PREFILL && s.node.dev.generation == 1 && |s.node.dev.queue| == 1
      && !s.node.dev.resetRequired && s.node.dev.lastAccepted == Some(0) && s.node.dev.expected == Some(1)
      && s.known.Some? && s.known.value.received <= 1
  {
    states, events := ReachReadyToReset(c, target, node);
    states, events := Then(states, events, HostDecide(Clock(true, true, true, false, false, false)));
    states, events := Then(states, events, LinkTakes);
    states, events := Then(states, events, HostComplete);
    states, events := Then(states, events, Deliver(0));
    hide Run;
  }

  // Streaming is reachable, with the device prefilling: what is said of streaming runs is
  // said of something.
  lemma StreamingIsReached(c: Config, target: RobotTrajectory.Target, node: E.Node)
      returns (states: seq<Sys>, events: seq<Event>)
    requires ValidConfig(c) && node == E.Start(node.image)
    ensures Run(states, events) && states[|events|].cfg == c && Filling(states[|events|], 1)
  {
    states, events := ReachResetRead(c, target, node);
    states, events := Then(states, events, Report(false, false));
    states, events := Then(states, events, StatusArrives);
    states, events := Then(states, events, HostDecide(Clock(true, true, true, false, false, false)));
    hide Run;
  }

  // ------------------------------------------------------------- the prefill, to its end

  // The EtherCAT task has done nothing yet.
  predicate FreshNode(n: E.Node) {
    && n.pc.AtExchange? && !n.test && n.log == [] && n.dev.staged == None
    && n.dev.queue != [] && n.dev.queue[0].validityMs == VALIDITY_MS && n.dev.queue[0].receivedTick == 0
  }

  // The host still goes by the status that acknowledged the RESET, and `count` points are
  // queued on the device.
  predicate Filling(s: Sys, count: nat) {
    && s.host.stream == CspScheduler.Streaming && s.host.enabled && s.pending.Quiet? && s.channel == []
    && s.sent != [] && !s.sent[|s.sent| - 1].kind.HoldFrame?
    && 0 < count < START_PREFILL && |s.host.queue| == START_PREFILL - count
    && s.host.remote.Some? && Acknowledging(s.host.remote.value)
    && s.host.activeGeneration == 1 && s.host.activeEvents == s.host.remote.value.events
    && s.host.credit.accepted == 0 && s.host.credit.sent == count - 1
    && s.node.dev.state == PREFILL && !s.node.dev.resetRequired && |s.node.dev.queue| == count
    && s.node.dev.expected == Some(s.host.nextSequence) && FreshNode(s.node)
  }

  predicate Acknowledging(status: Status) {
    && status.state == PREFILL && status.depth == 1
    && status.capacity == EXPECTED_CAPACITY && status.prefill == EXPECTED_PREFILL
    && !status.resetRequired && !Latched(status) && status.generation == 1
  }

  // One more point is decided, sent, completed and delivered.
  lemma FillOne(states: seq<Sys>, events: seq<Event>, count: nat)
      returns (states': seq<Sys>, events': seq<Event>)
    requires Run(states, events) && Filling(states[|events|], count)
    requires count < states[|events|].cfg.high <= EXPECTED_CAPACITY - QUEUE_RESERVE && count < START_PREFILL - 1
    ensures Run(states', events') && Filling(states'[|events'|], count + 1)
    ensures states'[|events'|].cfg == states[|events|].cfg
  {
    states', events' := Then(states, events, HostDecide(Clock(true, true, true, false, false, false)));
    states', events' := Then(states', events', LinkTakes);
    states', events' := Then(states', events', HostComplete);
    states', events' := Then(states', events', Deliver(0));
    hide Run;
  }

  lemma {:induction false} ReachFilled(c: Config, target: RobotTrajectory.Target, node: E.Node, count: nat)
      returns (states: seq<Sys>, events: seq<Event>)
    requires ValidConfig(c) && node == E.Start(node.image)
    requires 0 < count <= RobotTrajectory.PREFILL_COUNT <= c.high
    ensures Run(states, events) && states[|events|].cfg == c && Filling(states[|events|], count)
    decreases count
  {
    if count == 1 {
      states, events := StreamingIsReached(c, target, node);
    } else {
      states, events := ReachFilled(c, target, node, count - 1);
      states, events := FillOne(states, events, count - 1);
    }
  }

  lemma TaskGrows(states: seq<Sys>, events: seq<Event>, e: E.Event)
      returns (states': seq<Sys>, events': seq<Event>)
    requires Run(states, events) && !e.ResetFrame? && !e.ApplyFrame? && E.Enabled(states[|events|].node, e)
    ensures Run(states', events') && states' != []
    ensures states'[|events'|] == states[|events|].(node := E.Next(states[|events|].node, e))
  {
    hide E.Enabled, E.Next;
    RunGrows(states, events, DeviceStep(e));
    states', events' := states + [Next(states[|events|], DeviceStep(e))], events + [DeviceStep(e)];
    hide Run;
  }

  // The task enters the TEST state and takes the first point: the device runs.
  lemma RunningIsReached(c: Config, target: RobotTrajectory.Target, node: E.Node, inputs: Pdo.Inputs)
      returns (states: seq<Sys>, events: seq<Event>)
    requires ValidConfig(c) && node == E.Start(node.image) && c.high >= RobotTrajectory.PREFILL_COUNT
    ensures Run(states, events) && states[|events|].cfg == c
    ensures
      var n := states[|events|].node;
      && n.pc.Taken? && n.test && n.pc.generation == n.dev.generation && n.log == []
      && n.dev.state == RUNNING && !n.dev.resetRequired && n.dev.staged == None
  {
    states, events := ReachFilled(c, target, node, RobotTrajectory.PREFILL_COUNT);
    states, events := TaskGrows(states, events, E.GoodExchange(1));
    states, events := TaskGrows(states, events, E.OtherHandler(node.image, true));
    states, events := TaskGrows(states, events, E.GoodExchange(2));
    states, events := TaskGrows(states, events, E.TestTake(1, inputs));
    hide Run;
  }

  // And a point is staged, committed and confirmed by the next exchange.
  lemma ConfirmationIsReached(c: Config, target: RobotTrajectory.Target, node: E.Node, inputs: Pdo.Inputs)
      returns (states: seq<Sys>, events: seq<Event>)
    requires ValidConfig(c) && node == E.Start(node.image) && c.high >= RobotTrajectory.PREFILL_COUNT
    ensures Run(states, events) && states[|events|].cfg == c && |states[|events|].node.log| == 1
  {
    states, events := RunningIsReached(c, target, node, inputs);
    states, events := TaskGrows(states, events, E.TestStage);
    states, events := TaskGrows(states, events, E.TestCommit);
    states, events := TaskGrows(states, events, E.GoodExchange(3));
    hide Run;
  }
}
