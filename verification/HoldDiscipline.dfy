// How a stream ends: what is sent last before the host rests, and how a fault is left.
module HoldDiscipline {
  import opened Words
  import opened RobotTrajectory
  import opened CspScheduler
  import opened Link
  import opened LinkInvariant
  import opened Scenario
  import opened Streaming
  import E = Execution

  // The call began a new stream.
  predicate Restarts(s: Sys, e: Event) {
    e.HostCall? &&
    match e.call
    case CallStart => StartTrajectory(s.host).1
    case CallRecover => RecoverTrajectory(s.host).1 == Recovered
    case _ => false
  }

  predicate Moving(stream: Stream) { stream == ResetAwaitingAck || stream == CspScheduler.Streaming }

  predicate Settled(s: Sys) {
    s.pending.Quiet? && (s.host.stream == Holding || s.host.stream == ResetRequired)
  }

  predicate EndsWithHold(sent: seq<Frame>) { sent != [] && sent[|sent| - 1].kind.HoldFrame? }

  // Since its latest start or recovery the stream got as far as awaiting the
  // acknowledgment of its RESET.
  predicate Reached(states: seq<Sys>, events: seq<Event>, k: nat)
    requires |states| == |events| + 1 && k < |states|
    decreases k
  {
    k > 0 && !Restarts(states[k - 1], events[k - 1]) &&
    (Reached(states, events, k - 1) || Moving(states[k].host.stream))
  }

  predicate Terminal(stream: Stream) { stream == Holding || stream == ResetRequired || stream == Fault }

  predicate Disciplined(s: Sys, reached: bool) {
    && Terminal(s.host.terminal)
    && (Moving(s.host.stream) ==> reached)
    && (reached ==> s.host.lastSent.Some? && s.host.stream != StartPending && s.host.stream != Idle)
    && (!s.pending.Quiet? && s.pending.action.ResetApply? ==> !reached)
    && (reached && (s.host.stream == Holding || s.host.stream == ResetRequired) ==>
          s.pending.Quiet? && EndsWithHold(s.sent))
  }

  // What a decision may do to the stream's end.
  predicate EndsInOrder(h: Host, h': Host, action: Action) {
    && Terminal(h'.terminal) && h'.lastSent == h.lastSent
    && (Moving(h'.stream) ==> Moving(h.stream))
    && (h'.stream == StartPending || h'.stream == Idle ==> h.stream == h'.stream)
    && (action.ResetApply? ==> h.stream == StartPending)
    && (h'.stream == Holding || h'.stream == ResetRequired ==>
          || (h.stream == h'.stream && action.NoAction?) || h.stream == StartPending || h.lastSent.None?)
  }

  lemma StreamingEndsInOrder(c: Config, h: Host, t: Clock)
    requires Terminal(h.terminal) && h.stream == CspScheduler.Streaming
    ensures EndsInOrder(h, DecideStreaming(c, h, t).0, DecideStreaming(c, h, t).1)
  {
    hide RemoteFault, MayApply, SafetyFault;
  }

  lemma CycleKeepsDiscipline(c: Config, h: Host, t: Clock)
    requires Terminal(h.terminal)
    ensures EndsInOrder(h, Decide(c, h, t).0, Decide(c, h, t).1)
  {
    if h.stream == CspScheduler.Streaming {
      StreamingEndsInOrder(c, h, t);
      hide EndsInOrder;
    }
    hide DecideStreaming, ResetAccepted, SafetyFault;
  }

  lemma DecideKeepsDiscipline(s: Sys, t: Clock, reached: bool)
    requires Inv(s) && Disciplined(s, reached) && Enabled(s, HostDecide(t))
    ensures Disciplined(Next(s, HostDecide(t)), reached || Moving(Next(s, HostDecide(t)).host.stream))
  {
    CycleKeepsDiscipline(s.cfg, s.host, t);
    hide Decide, Inv;
  }

  lemma CallKeepsDiscipline(s: Sys, call: Call, reached: bool)
    requires Inv(s) && Disciplined(s, reached)
    ensures
      var s' := Next(s, HostCall(call));
      Disciplined(s', !Restarts(s, HostCall(call)) && (reached || Moving(s'.host.stream)))
  {
    hide Numbered, DeviceOk, Ordered, SnapsOk, CreditOk;
  }

  lemma OtherKeepsDiscipline(s: Sys, e: Event, reached: bool)
    requires Inv(s) && Disciplined(s, reached) && Enabled(s, e) && !e.HostDecide? && !e.HostCall?
    ensures Disciplined(Next(s, e), reached || Moving(Next(s, e).host.stream))
  {
    hide DeviceOk, Ordered, SnapsOk, CreditOk, E.Next, E.Enabled, ReadFrame, ChannelOk, SequencesCount;
  }

  lemma {:induction false} RunIsDisciplined(states: seq<Sys>, events: seq<Event>, k: nat)
    requires Run(states, events) && k < |states|
    ensures Disciplined(states[k], Reached(states, events, k))
    decreases k
  {
    if k > 0 {
      RunIsDisciplined(states, events, k - 1);
      RunKeepsInv(states, events, k - 1);
      hide Inv, Next, Enabled, Disciplined;
      var s, e := states[k - 1], events[k - 1];
      assert Enabled(s, e) && states[k] == Next(s, e);
      match e {
        case HostDecide(t) => DecideKeepsDiscipline(s, t, Reached(states, events, k - 1));
        case HostCall(call) => CallKeepsDiscipline(s, call, Reached(states, events, k - 1));
        case _ => OtherKeepsDiscipline(s, e, Reached(states, events, k - 1));
      }
    }
  }

  // A stream that got as far as its RESET never comes to rest without a HOLD behind its
  // last RESET or APPLY, however finish, abort and fault calls race with the unlocked send.
  lemma RestsBehindAHold(states: seq<Sys>, events: seq<Event>, k: nat)
    requires Run(states, events) && k < |states| && Settled(states[k])
    requires Reached(states, events, k)
    ensures EndsWithHold(states[k].sent)
  {
    RunIsDisciplined(states, events, k);
    hide Run, Next;
  }

  // Only a recovery leaves the fault state.
  lemma FaultIsLeftByRecoveryOnly(s: Sys, e: Event)
    requires Enabled(s, e) && s.host.stream == Fault
    ensures Next(s, e).host.stream != Fault <==>
            e == HostCall(CallRecover) && s.host.enabled
  {
    hide E.Next, E.Enabled, ReadFrame;
  }

  // ---------------------------------------------------------- who rests owing a HOLD

  // A RESET or APPLY was sent and no HOLD after it.
  predicate OwesHold(sent: seq<Frame>) { sent != [] && !sent[|sent| - 1].kind.HoldFrame? }

  // So it is, or will be when the link has taken the frame the worker is about to send.
  predicate WillOwe(s: Sys) {
    if s.pending.Decided? then !s.pending.action.Hold? else OwesHold(s.sent)
  }

  predicate AtRest(stream: Stream) { stream == Holding || stream == ResetRequired }

  predicate SendsReset(p: Pending) { !p.Quiet? && p.action.ResetApply? }

  // The queued head has outlived its time, with the gate open.
  predicate StaleHead(h: Host, t: Clock) { h.enabled && h.queue != [] && !t.headFresh }

  // Starting is left for rest exactly by a finish, an abort or a cycle that finds the head
  // stale, and none of them touches what is on the wire or about to be.
  lemma StartingIsLeft(s: Sys, e: Event)
    requires Enabled(s, e) && s.host.stream == StartPending
    ensures AtRest(Next(s, e).host.stream) <==>
            || e == HostCall(CallFinish) || e == HostCall(CallAbort)
            || (e.HostDecide? && StaleHead(s.host, e.clock))
    ensures AtRest(Next(s, e).host.stream) ==> Next(s, e).sent == s.sent && Next(s, e).pending == s.pending
  {
    hide E.Next, E.Enabled, ReadFrame;
  }

  // The worker's current cycle runs to its end on a link that takes the frame.
  function Settle(s: Sys): Sys {
    if s.pending.Decided? && s.pending.action != NoAction then Next(Next(s, LinkTakes), HostComplete)
    else if s.pending.SentOut? then Next(s, HostComplete)
    else s
  }

  // However starting is left, the host settles, and owes a HOLD if and only if it was owed
  // when starting was left or the worker was then about to send something else.
  lemma EndWhileStarting(s: Sys, e: Event)
    requires Inv(s) && Enabled(s, e) && s.host.stream == StartPending && AtRest(Next(s, e).host.stream)
    ensures
      var s' := Settle(Next(s, e));
      && Settled(s')
      && (OwesHold(s'.sent) <==> WillOwe(s))
  {
    StartingIsLeft(s, e);
    var next := Next(s, e);
    assert next.host.nextSequence == s.host.nextSequence by { hide E.Next, ReadFrame; }
    hide DeviceOk, Ordered, SnapsOk, CreditOk, Phases, ChannelOk, SequencesCount, E.Inv, Decide, ApplyCall;
  }

  // Starting is left with the RESET in the sender's hands.
  predicate CutsShort(s: Sys, s': Sys) {
    s.host.stream == StartPending && SendsReset(s.pending) && AtRest(s'.host.stream)
  }

  // The latest start or recovery was called while a HOLD was owed or about to be.
  predicate StartedOwing(states: seq<Sys>, events: seq<Event>, k: nat)
    requires |states| == |events| + 1 && k < |states|
    decreases k
  {
    k > 0 &&
    if Restarts(states[k - 1], events[k - 1]) then WillOwe(states[k - 1])
    else StartedOwing(states, events, k - 1)
  }

  // So it was since the latest start or recovery.
  predicate CutShort(states: seq<Sys>, events: seq<Event>, k: nat)
    requires |states| == |events| + 1 && k < |states|
    decreases k
  {
    k > 0 && !Restarts(states[k - 1], events[k - 1]) &&
    (CutShort(states, events, k - 1) || CutsShort(states[k - 1], states[k]))
  }

  // What is owed in each stream state, given how the stream was started and starting left.
  predicate Accounted(s: Sys, reached: bool, owing: bool, cut: bool) {
    match s.host.stream
    case Idle => s.sent == [] && s.pending.Quiet? && !owing && !cut
    case StartPending => !cut && (WillOwe(s) <==> owing || SendsReset(s.pending))
    case Holding => !reached ==> (WillOwe(s) <==> owing || cut)
    case ResetRequired => !reached ==> (WillOwe(s) <==> owing || cut)
    case Finishing => reached
    case _ => true
  }

  lemma DecideKeepsAccount(s: Sys, t: Clock, reached: bool, owing: bool, cut: bool)
    requires Disciplined(s, reached) && Accounted(s, reached, owing, cut) && Enabled(s, HostDecide(t))
    ensures
      var s' := Next(s, HostDecide(t));
      Accounted(s', reached || Moving(s'.host.stream), owing, cut || CutsShort(s, s'))
  {
    CycleKeepsDiscipline(s.cfg, s.host, t);
    hide RemoteFault, MayApply, SafetyFault, ResetAccepted, AllowsReset;
  }

  lemma CallKeepsAccount(s: Sys, call: Call, reached: bool, owing: bool, cut: bool)
    requires Inv(s) && Disciplined(s, reached) && Accounted(s, reached, owing, cut)
    ensures
      var e := HostCall(call);
      var s' := Next(s, e);
      if Restarts(s, e) then Accounted(s', false, WillOwe(s), false)
      else Accounted(s', reached || Moving(s'.host.stream), owing, cut || CutsShort(s, s'))
  {
    hide DeviceOk, Ordered, SnapsOk, CreditOk, Phases, ChannelOk, SequencesCount;
  }

  lemma OtherKeepsAccount(s: Sys, e: Event, reached: bool, owing: bool, cut: bool)
    requires Disciplined(s, reached) && Accounted(s, reached, owing, cut)
    requires Enabled(s, e) && !e.HostDecide? && !e.HostCall?
    ensures Accounted(Next(s, e), reached || Moving(Next(s, e).host.stream), owing, cut || CutsShort(s, Next(s, e)))
  {
    hide E.Next, E.Enabled, ReadFrame;
  }

  lemma {:induction false} RunIsAccounted(states: seq<Sys>, events: seq<Event>, k: nat)
    requires Run(states, events) && k < |states|
    ensures Accounted(states[k], Reached(states, events, k), StartedOwing(states, events, k),
                      CutShort(states, events, k))
    decreases k
  {
    if k > 0 {
      RunIsAccounted(states, events, k - 1);
      RunIsDisciplined(states, events, k - 1);
      RunKeepsInv(states, events, k - 1);
      hide Next, Enabled, Disciplined, Accounted, Inv;
      var s, e := states[k - 1], events[k - 1];
      assert Enabled(s, e) && states[k] == Next(s, e);
      var reached, owing, cut :=
        Reached(states, events, k - 1), StartedOwing(states, events, k - 1), CutShort(states, events, k - 1);
      match e {
        case HostDecide(t) => DecideKeepsAccount(s, t, reached, owing, cut);
        case HostCall(call) => CallKeepsAccount(s, call, reached, owing, cut);
        case _ => OtherKeepsAccount(s, e, reached, owing, cut);
      }
    }
  }

  // The discipline exactly, over runs: a settled host owes a HOLD if and only if its latest
  // start never reached the acknowledgment of a RESET, and either was made with a HOLD owed
  // already or was cut short while the RESET was being sent.
  lemma WhoRestsOwing(states: seq<Sys>, events: seq<Event>, k: nat)
    requires Run(states, events) && k < |states| && Settled(states[k])
    ensures OwesHold(states[k].sent) <==>
            !Reached(states, events, k) && (StartedOwing(states, events, k) || CutShort(states, events, k))
  {
    RunIsAccounted(states, events, k);
    if Reached(states, events, k) {
      RestsBehindAHold(states, events, k);
    }
    hide Run;
  }

  // --------------------------------------------------------------- runs that end so

  predicate RestsOwing(s: Sys) { Settled(s) && OwesHold(s.sent) }

  // Where a call to finish or to abort leaves a starting stream.
  function Ended(end: Call): Stream { if end.CallFinish? then Holding else ResetRequired }

  // A finish or abort between the decision to send the RESET and its completion leaves the
  // host at rest with the RESET sent and no HOLD.
  lemma FinishRacesReset(c: Config, target: RobotTrajectory.Target, node: E.Node, end: Call)
      returns (states: seq<Sys>, events: seq<Event>)
    requires end.CallFinish? || end.CallAbort?
    requires ValidConfig(c) && node == E.Start(node.image)
    ensures Run(states, events) && RestsOwing(states[|events|]) && states[|events|].host.stream == Ended(end)
  {
    states, events := ReachReadyToReset(c, target, node);
    states, events := Then(states, events, HostDecide(Clock(true, true, true, false, false, false)));
    states, events := Then(states, events, HostCall(end));
    states, events := Then(states, events, LinkTakes);
    states, events := Then(states, events, HostComplete);
    hide Run;
  }

  // A second start while the RESET is not acknowledged forgets that it was sent: ending it
  // sends nothing, with the worker quiet at both calls.
  lemma StartForgetsReset(c: Config, target: RobotTrajectory.Target, node: E.Node, end: Call)
      returns (states: seq<Sys>, events: seq<Event>)
    requires end.CallFinish? || end.CallAbort?
    requires ValidConfig(c) && node == E.Start(node.image)
    ensures Run(states, events) && RestsOwing(states[|events|]) && states[|events|].host.stream == Ended(end)
    ensures |events| >= 2 && events[|events| - 2..] == [HostCall(CallStart), HostCall(end)]
    ensures states[|events| - 2].host.stream == ResetAwaitingAck && states[|events| - 2].pending.Quiet?
  {
    states, events := ReachResetRead(c, target, node);
    states, events := Then(states, events, HostCall(CallStart));
    states, events := Then(states, events, HostCall(end));
    hide Run;
  }

  // A refused send in the middle of a stream raises a fault without a HOLD.
  lemma ReachRefusedSend(c: Config, target: RobotTrajectory.Target, node: E.Node)
      returns (states: seq<Sys>, events: seq<Event>)
    requires ValidConfig(c) && c.high > 1 && node == E.Start(node.image)
    ensures Run(states, events)
    ensures |events| >= 1 && events[|events| - 1] == LinkFails
    ensures states[|events| - 1].host.stream == CspScheduler.Streaming
    ensures
      var s := states[|events|];
      && s.host.stream == Fault && s.host.enabled && s.host.latest.Some? && s.pending.Quiet? && OwesHold(s.sent)
  {
    states, events := StreamingIsReached(c, target, node);
    states, events := Then(states, events, HostCall(CallSubmit(target, true)));
    states, events := Then(states, events, HostDecide(Clock(true, true, true, false, false, false)));
    states, events := Then(states, events, LinkFails);
    hide Run;
  }

  // The recovery from that fault forgets the stream, and ending it sends nothing.
  lemma RecoveryForgetsStream(c: Config, target: RobotTrajectory.Target, node: E.Node, end: Call)
      returns (states: seq<Sys>, events: seq<Event>)
    requires end.CallFinish? || end.CallAbort?
    requires ValidConfig(c) && c.high > 1 && node == E.Start(node.image)
    ensures Run(states, events) && RestsOwing(states[|events|]) && states[|events|].host.stream == Ended(end)
    ensures |events| >= 3 && events[|events| - 3..] == [LinkFails, HostCall(CallRecover), HostCall(end)]
    ensures states[|events| - 3].host.stream == CspScheduler.Streaming
  {
    states, events := ReachRefusedSend(c, target, node);
    states, events := Then(states, events, HostCall(CallRecover));
    states, events := Then(states, events, HostCall(end));
    hide Run;
  }

  const STALE_HEAD := Clock(false, true, true, false, false, false)

  // Nor does it take a call: the recovery queues the latest target again, and the next
  // cycle finds it stale and rests.
  lemma StaleHeadForgetsStream(c: Config, target: RobotTrajectory.Target, node: E.Node)
      returns (states: seq<Sys>, events: seq<Event>)
    requires ValidConfig(c) && c.high > 1 && node == E.Start(node.image)
    ensures Run(states, events) && RestsOwing(states[|events|]) && states[|events|].host.stream == ResetRequired
    ensures |events| >= 3 && events[|events| - 3..] == [LinkFails, HostCall(CallRecover), HostDecide(STALE_HEAD)]
    ensures states[|events| - 3].host.stream == CspScheduler.Streaming
  {
    states, events := ReachRefusedSend(c, target, node);
    states, events := Then(states, events, HostCall(CallRecover));
    states, events := Then(states, events, HostDecide(STALE_HEAD));
    hide Run;
  }
}
