// Filling an empty device: on a link that loses nothing the host's delayed count is
// exact while the device prefills, so points keep coming until it runs. With a high
// watermark below the prefill count, which the constructor accepts, it never runs.
module Prefill {
  import opened Words
  import opened RobotTrajectory
  import opened CspScheduler
  import opened Link
  import opened LinkInvariant
  import opened LinkSteps
  import opened S = Streaming
  import E = Execution

  // A status composed after the device read the current RESET names its generation, and
  // until the device runs its depth differs from today's by the points accepted since.
  predicate SnapExact(resetIndex: nat, accepted: nat, d: RobotTrajectory.Device, snap: Snap) {
    resetIndex < snap.received && d.expected.Some? ==>
      && snap.status.generation == Low16(d.generation)
      && snap.status.lastAccepted.Some?
      && (d.state == PREFILL ==> snap.status.depth + accepted == snap.accepted + |d.queue|)
  }

  predicate AllExact(resetIndex: nat, accepted: nat, d: RobotTrajectory.Device, snaps: seq<Snap>) {
    forall i :: 0 <= i < |snaps| ==> SnapExact(resetIndex, accepted, d, snaps[i])
  }

  predicate SnapsExact(s: Sys) {
    && AllExact(s.resetIndex, s.accepted, s.node.dev, s.statuses)
    && (s.known.Some? ==> SnapExact(s.resetIndex, s.accepted, s.node.dev, s.known.value))
  }

  predicate Newer(floor: nat, snaps: seq<Snap>) {
    && (forall i :: 0 <= i < |snaps| ==> floor <= snaps[i].received)
    && (forall i, j :: 0 <= i < j < |snaps| ==> snaps[i].received <= snaps[j].received)
  }

  predicate ResetSeen(s: Sys) {
    && s.received <= |s.sent|
    && (s.received > 0 && s.sent[s.received - 1].kind.ResetFrame? ==> s.resetIndex == s.received - 1)
    && (if s.received > 0 then s.resetIndex < s.received else s.resetIndex == 0)
  }

  predicate CountsExact(s: Sys) {
    s.host.stream == CspScheduler.Streaming && s.node.dev.expected.Some? ==>
      && s.known.Some?
      && s.resetIndex < s.base.sent <= s.known.value.received
      && s.host.activeGeneration == Low16(s.node.dev.generation)
      && s.host.credit.sent + ApplySentOut(s.pending) == s.accepted - s.base.accepted + Applies(s.channel)
      && (s.node.dev.state == PREFILL ==> s.base.accepted + s.host.credit.accepted == s.known.value.accepted)
  }

  predicate Exact(s: Sys) {
    && Contiguous(s.channel, s.received, |s.sent|)
    && SnapsExact(s)
    && Newer(if s.known.Some? then s.known.value.received else 0, s.statuses)
    && ResetSeen(s)
    && CountsExact(s)
  }

  // --------------------------------------------------------------- host steps

  lemma CallEffectOnGeneration(c: Config, h: Host, call: Call)
    ensures ApplyCall(c, h, call).activeGeneration == h.activeGeneration
  {
  }

  lemma CallKeepsExact(s: Sys, call: Call)
    requires Inv(s) && Exact(s)
    ensures Exact(Next(s, HostCall(call)))
  {
    CallEffect(s.cfg, s.host, call);
    CallEffectOnGeneration(s.cfg, s.host, call);
    hide ApplyCall, Contiguous, SnapExact, Newer, Numbered, DeviceOk, Ordered, SnapsOk, CreditOk, Applies;
  }

  lemma DecideEffectOnGeneration(c: Config, h: Host, t: Clock)
    requires Quiescent(h.terminal)
    ensures
      var h' := Decide(c, h, t).0;
      h'.activeGeneration ==
      if Acknowledges(h, h') then h.remote.value.generation else h.activeGeneration
  {
    hide CycleEffect;
  }

  lemma AcknowledgeKeepsExact(s: Sys, t: Clock)
    requires Inv(s) && Exact(s) && Enabled(s, HostDecide(t))
    requires Acknowledges(s.host, Decide(s.cfg, s.host, t).0) && t.remoteFresh
    requires Decide(s.cfg, s.host, t).1.NoAction?
    ensures Exact(Next(s, HostDecide(t)))
  {
    AcknowledgedMeansRead(s);
    DecideEffect(s.cfg, s.host, t);
    DecideEffectOnGeneration(s.cfg, s.host, t);
    hide Decide, Contiguous, Newer, Numbered, DeviceOk, Ordered, CreditOk;
  }

  lemma DecideOtherKeepsExact(s: Sys, t: Clock)
    requires Inv(s) && Exact(s) && Enabled(s, HostDecide(t))
    requires !Acknowledges(s.host, Decide(s.cfg, s.host, t).0)
    ensures Exact(Next(s, HostDecide(t)))
  {
    DecideEffect(s.cfg, s.host, t);
    DecideEffectOnGeneration(s.cfg, s.host, t);
    hide Decide, Contiguous, SnapExact, AllExact, Newer, Numbered, DeviceOk, Ordered, SnapsOk, CreditOk, Applies,
         Occupied, Acknowledges;
  }

  lemma DecideKeepsExact(s: Sys, t: Clock)
    requires Inv(s) && Exact(s) && Enabled(s, HostDecide(t))
    ensures Exact(Next(s, HostDecide(t)))
  {
    DecideEffect(s.cfg, s.host, t);
    hide Decide, Inv, Exact, Next, StaysOrRests, SameWire;
    if Acknowledges(s.host, Decide(s.cfg, s.host, t).0) {
      AcknowledgeKeepsExact(s, t);
    } else {
      DecideOtherKeepsExact(s, t);
    }
  }

  lemma CompleteKeepsExact(s: Sys, e: Event)
    requires Inv(s) && Exact(s) && Enabled(s, e) && (e.LinkFails? || e.HostComplete?)
    ensures Exact(Next(s, e))
  {
    CompleteEffect(s.host, s.pending.action, e.HostComplete?, if e.HostComplete? then s.pending.sequence else 0);
    assert Next(s, e).host.activeGeneration == s.host.activeGeneration;
    hide Complete, Contiguous, SnapExact, Newer, DeviceOk, Ordered, SnapsOk, CreditOk, Applies;
  }

  lemma TakesKeepsExact(s: Sys)
    requires Inv(s) && Exact(s) && Enabled(s, LinkTakes)
    ensures Exact(Next(s, LinkTakes))
  {
    StepKeepsContiguous(s, LinkTakes);
    AppliesAppend(s.channel, Packet(|s.sent|, FrameOf(s.pending.action, s.host.nextSequence)));
    hide Contiguous, SnapExact, Newer, DeviceOk, Ordered, SnapsOk, CreditOk, Applies, Numbered;
  }

  // ---------------------------------------------------------- device and status steps

  lemma InternalKeepsPhase(n: E.Node, e: E.Event)
    requires E.Inv(n) && E.Enabled(n, e) && !e.ResetFrame? && !e.ApplyFrame?
    ensures
      var d, d' := n.dev, E.Next(n, e).dev;
      && d'.generation == d.generation
      && (d'.expected.Some? ==> d.expected.Some?)
      && (d'.state == PREFILL ==> d.state == PREFILL && d'.queue == d.queue)
  {
    hide E.LogMatches, E.Conserved, E.StagedMatches, E.TakenMatches;
  }

  // The device may leave prefill or the session, but it does not change what it reported.
  lemma ExactAcrossDevice(snaps: seq<Snap>, resetIndex: nat, accepted: nat, d: RobotTrajectory.Device,
                          d': RobotTrajectory.Device)
    requires AllExact(resetIndex, accepted, d, snaps)
    requires d'.generation == d.generation && (d'.expected.Some? ==> d.expected.Some?)
    requires d'.state == PREFILL ==> d.state == PREFILL && d'.queue == d.queue
    ensures AllExact(resetIndex, accepted, d', snaps)
  {
    forall i | 0 <= i < |snaps| ensures SnapExact(resetIndex, accepted, d', snaps[i]) {
      assert SnapExact(resetIndex, accepted, d, snaps[i]);
    }
  }

  lemma DeviceKeepsSnapsExact(s: Sys, e: Event)
    requires Inv(s) && Exact(s) && Enabled(s, e) && e.DeviceStep?
    ensures SnapsExact(Next(s, e))
  {
    InternalKeepsPhase(s.node, e.event);
    var d, d' := s.node.dev, E.Next(s.node, e.event).dev;
    ExactAcrossDevice(s.statuses, s.resetIndex, s.accepted, d, d');
    if s.known.Some? {
      ExactAcrossDevice([s.known.value], s.resetIndex, s.accepted, d, d');
      assert SnapExact(s.resetIndex, s.accepted, d', [s.known.value][0]);
    }
    hide E.Next, E.Enabled, AllExact, SnapExact, Contiguous, Newer, CountsExact, ResetSeen, Inv;
  }

  lemma DeviceKeepsCounts(s: Sys, e: Event)
    requires Inv(s) && Exact(s) && Enabled(s, e) && e.DeviceStep?
    ensures CountsExact(Next(s, e))
  {
    InternalKeepsPhase(s.node, e.event);
    hide E.Next, E.Enabled, SnapsExact, Contiguous, Newer, ResetSeen, Inv, Applies;
  }

  lemma DeviceKeepsExact(s: Sys, e: Event)
    requires Inv(s) && Exact(s) && Enabled(s, e) && e.DeviceStep?
    ensures Exact(Next(s, e))
  {
    DeviceKeepsSnapsExact(s, e);
    DeviceKeepsCounts(s, e);
    hide E.Next, E.Enabled, SnapsExact, CountsExact, Contiguous, Newer, Inv;
  }

  lemma ReportKeepsExact(s: Sys, e: Event)
    requires Inv(s) && Exact(s) && Enabled(s, e) && e.Report?
    ensures Exact(Next(s, e))
  {
    hide Contiguous, Ordered, CreditOk, Applies, Numbered;
  }

  lemma LoseStatusKeepsExact(s: Sys, e: Event)
    requires Inv(s) && Exact(s) && Enabled(s, e) && e.LoseStatus?
    ensures Exact(Next(s, e))
  {
    hide Contiguous, Ordered, CreditOk, Applies, Numbered, SnapExact, SnapsOk, Phases, DeviceOk;
  }

  lemma CreditedExactly(credit: Credit, snap: Snap, base: nat)
    requires credit.lastAccepted == (base + credit.accepted) % 0x1_0000
    requires snap.status.accepted == snap.accepted % 0x1_0000
    requires base + credit.accepted <= snap.accepted < base + credit.accepted + 0x8000
    ensures base + Credited(credit, snap.status).accepted == snap.accepted
    ensures Credited(credit, snap.status).sent == credit.sent
  {
    SubtractionWraps(snap.accepted, base + credit.accepted);
  }

  lemma ArrivalIsCounted(s: Sys)
    requires Inv(s) && Exact(s) && Enabled(s, StatusArrives)
    requires s.host.stream == CspScheduler.Streaming && s.node.dev.state == PREFILL
    ensures
      var s' := Next(s, StatusArrives);
      s'.base.accepted + s'.host.credit.accepted == s'.known.value.accepted
  {
    hide Contiguous, Ordered, Applies, Numbered, Credited;
    var snap := s.statuses[0];
    assert SnapExact(s.resetIndex, s.accepted, s.node.dev, snap);
    assert SnapExact(s.resetIndex, s.accepted, s.node.dev, s.known.value);
    assert SnapOk(s.accepted, s.received, |s.node.dev.queue|, snap);
    CreditedExactly(s.host.credit, snap, s.base.accepted);
  }

  lemma ArrivalKeepsCounts(s: Sys)
    requires Inv(s) && Exact(s) && Enabled(s, StatusArrives)
    ensures CountsExact(Next(s, StatusArrives))
  {
    if s.host.stream == CspScheduler.Streaming && s.node.dev.state == PREFILL {
      ArrivalIsCounted(s);
    }
    hide Contiguous, Ordered, CreditOk, Applies, Numbered, SnapsExact, SnapsOk, Sub16;
  }

  lemma ArrivalKeepsExact(s: Sys)
    requires Inv(s) && Exact(s) && Enabled(s, StatusArrives)
    ensures Exact(Next(s, StatusArrives))
  {
    ArrivalKeepsCounts(s);
    hide Contiguous, Ordered, CreditOk, Applies, Numbered, SnapExact, SnapsOk, Credited, Phases, CountsExact;
  }

  // -------------------------------------------------------------------- frame steps

  // Apart from a RESET, a frame leaves the generation alone and cannot begin a prefill.
  lemma DeliverPhase(s: Sys, e: Event)
    requires Inv(s) && Enabled(s, e) && e.Deliver? && !s.channel[0].frame.kind.ResetFrame?
    ensures
      var d, d' := s.node.dev, Next(s, e).node.dev;
      && d'.generation == d.generation
      && (d'.expected.Some? ==> d.expected.Some? && Accepts(d, s.channel[0].frame, e.tick))
      && (d'.state == PREFILL ==> d.state == PREFILL)
  {
    PushSeen(s.node.dev, s.channel[0].frame.sequence, PointOf(s.channel[0].frame, e.tick));
    hide Ordered, SnapsOk, CreditOk, Phases, Numbered, E.LogMatches, E.Conserved, E.StagedMatches, E.TakenMatches;
  }

  lemma ExactAcrossReset(snaps: seq<Snap>, received: nat, resetIndex: nat, accepted: nat,
                         d: RobotTrajectory.Device)
    requires forall i :: 0 <= i < |snaps| ==> snaps[i].received <= received
    requires received <= resetIndex
    ensures AllExact(resetIndex, accepted, d, snaps)
  {
  }

  lemma ExactAcrossApply(snaps: seq<Snap>, resetIndex: nat, accepted: nat, d: RobotTrajectory.Device,
                         d': RobotTrajectory.Device)
    requires AllExact(resetIndex, accepted, d, snaps)
    requires d'.generation == d.generation && d.expected.Some?
    requires |d'.queue| == |d.queue| + 1 && (d'.state == PREFILL ==> d.state == PREFILL)
    ensures AllExact(resetIndex, accepted + 1, d', snaps)
  {
    forall i | 0 <= i < |snaps| ensures SnapExact(resetIndex, accepted + 1, d', snaps[i]) {
      assert SnapExact(resetIndex, accepted, d, snaps[i]);
    }
  }

  lemma DeliverKeepsSnapsExact(s: Sys, e: Event)
    requires Inv(s) && Exact(s) && Enabled(s, e) && e.Deliver?
    ensures SnapsExact(Next(s, e))
  {
    hide Contiguous, Newer, CountsExact, Applies, CreditOk, Phases, SequencesCount, E.Inv, Ordered, CarriedBy;
    var p := s.channel[0];
    var s' := Next(s, e);
    ReadEffect(s.node, p.frame, e.tick);
    hide DeviceOk, ReadFrame;
    assert s.received <= p.index;
    var all := s.statuses + if s.known.Some? then [s.known.value] else [];
    assert AllExact(s.resetIndex, s.accepted, s.node.dev, all);
    if p.frame.kind.ResetFrame? {
      assert forall i :: 0 <= i < |all| ==> SnapOk(s.accepted, s.received, |s.node.dev.queue|, all[i]);
      ExactAcrossReset(all, s.received, s'.resetIndex, s'.accepted, s'.node.dev);
    } else {
      DeliverPhase(s, e);
      if Accepts(s.node.dev, p.frame, e.tick) {
        ExactAcrossApply(all, s.resetIndex, s.accepted, s.node.dev, s'.node.dev);
      }
    }
    assert AllExact(s'.resetIndex, s'.accepted, s'.node.dev, all);
    hide SnapExact, Next, Accepts, SnapsOk;
    assert s'.statuses == s.statuses && s'.known == s.known by { hide *; }
  }

  lemma DeliverKeepsResetSeen(s: Sys, e: Event)
    requires Inv(s) && Exact(s) && Enabled(s, e) && e.Deliver?
    ensures ResetSeen(Next(s, e))
  {
    hide Newer, CountsExact, Applies, CreditOk, Phases, SnapsOk, SequencesCount, E.Inv, Ordered, SnapsExact,
         ReadFrame, Accepts;
    var p := s.channel[0];
    assert s.received <= p.index < |s.sent| && s.sent[p.index] == p.frame;
  }

  lemma DeliverKeepsCounts(s: Sys, e: Event)
    requires Inv(s) && Exact(s) && Enabled(s, e) && e.Deliver?
    ensures CountsExact(Next(s, e))
  {
    hide Newer, Applies, CreditOk, SnapsOk, Numbered, Ordered, SnapsExact, ReadFrame, DeviceOk, Contiguous;
    if s.host.stream == CspScheduler.Streaming {
      assert !s.channel[0].frame.kind.ResetFrame?;
      DeliverPhase(s, e);
      AppliesWithout(s.channel, 0);
      assert Without(s.channel, 0) == s.channel[1..];
    }
    hide Phases, Accepts;
  }

  lemma DeliverKeepsExact(s: Sys, e: Event)
    requires Inv(s) && Exact(s) && Enabled(s, e) && e.Deliver?
    ensures Exact(Next(s, e))
  {
    StepKeepsContiguous(s, e);
    DeliverKeepsSnapsExact(s, e);
    DeliverKeepsResetSeen(s, e);
    DeliverKeepsCounts(s, e);
    hide Contiguous, SnapsExact, ResetSeen, CountsExact, Newer, Inv, ReadFrame, Accepts;
  }

  lemma StepKeepsExact(s: Sys, e: Event)
    requires Inv(s) && Exact(s) && Enabled(s, e) && !e.Lose? && !e.Corrupt?
    ensures Exact(Next(s, e))
  {
    hide Inv, Exact, Next, Enabled;
    match e
    case HostCall(call) => CallKeepsExact(s, call);
    case HostDecide(t) => DecideKeepsExact(s, t);
    case LinkTakes => TakesKeepsExact(s);
    case LinkFails => CompleteKeepsExact(s, e);
    case HostComplete => CompleteKeepsExact(s, e);
    case Deliver(_) => DeliverKeepsExact(s, e);
    case DeviceStep(_) => DeviceKeepsExact(s, e);
    case Report(_, _) => ReportKeepsExact(s, e);
    case LoseStatus(_) => LoseStatusKeepsExact(s, e);
    case StatusArrives => ArrivalKeepsExact(s);
  }

  lemma {:induction false} LosslessIsExact(states: seq<Sys>, events: seq<Event>, k: nat)
    requires Run(states, events) && LosesNothing(events) && k < |states|
    ensures Exact(states[k])
    decreases k
  {
    if k > 0 {
      LosslessIsExact(states, events, k - 1);
      RunKeepsInv(states, events, k - 1);
      hide Next, Enabled, Exact, Inv;
      assert Enabled(states[k - 1], events[k - 1]) && states[k] == Next(states[k - 1], events[k - 1]);
      StepKeepsExact(states[k - 1], events[k - 1]);
    }
  }

  // ------------------------------------------------------------------- the results

  // While the device prefills, the host's delayed figure is the true load: the points
  // on the device plus those on their way, however stale the status.
  lemma PrefillCountIsExact(states: seq<Sys>, events: seq<Event>, k: nat)
    requires Run(states, events) && LosesNothing(events) && k < |states|
    requires states[k].host.stream == CspScheduler.Streaming && states[k].pending.Quiet?
    requires states[k].node.dev.state == PREFILL
    ensures
      var s := states[k];
      s.host.remote.Some? && Occupied(s.host.remote.value, s.host.credit) == Load(s)
  {
    LosslessIsExact(states, events, k);
    RunKeepsInv(states, events, k);
    hide Run, Next, Enabled, Applies, Contiguous, Newer, Ordered, CreditOk, Numbered;
    var s := states[k];
    assert SnapExact(s.resetIndex, s.accepted, s.node.dev, s.known.value);
  }

  // A healthy cycle: nothing counts as a fault and a live target is queued.
  predicate HealthyCycle(h: Host, t: Clock) {
    && !RemoteFault(h.remote, h.activeGeneration, h.activeEvents, h.credit, t)
    && h.enabled && h.queue != [] && t.headFresh
  }

  // With a high watermark of at least the prefill count there is always credit: a healthy
  // cycle sends a point exactly while the load is below the watermark, and the distance to
  // the prefill count shrinks by one.
  lemma PrefillAlwaysProgresses(states: seq<Sys>, events: seq<Event>, k: nat, t: Clock)
    requires Run(states, events) && LosesNothing(events) && k < |states|
    requires states[k].host.stream == CspScheduler.Streaming && states[k].pending.Quiet?
    requires states[k].node.dev.state == PREFILL
    requires HealthyCycle(states[k].host, t)
    ensures
      var s := states[k];
      var s' := Next(s, HostDecide(t));
      if Load(s) < s.cfg.high
      then s'.pending == Decided(Apply(s.host.queue[0])) && Load(s') == Load(s) + 1
      else s'.pending == Quiet && Load(s') == Load(s)
    ensures states[k].cfg.high >= RobotTrajectory.PREFILL_COUNT > Load(states[k]) ==>
      Load(Next(states[k], HostDecide(t))) > Load(states[k])
  {
    PrefillCountIsExact(states, events, k);
    RunKeepsInv(states, events, k);
    hide Run, Numbered, DeviceOk, Ordered, SnapsOk, Phases, Applies;
  }

  lemma AcceptedWhilePrefilling(n: E.Node, f: Frame, tick: U32)
    requires n.dev.state == PREFILL && f.kind.ApplyFrame? && Push(n.dev, PointOf(f, tick)).1.PushOk?
    ensures ReadFrame(n, f, tick).dev.state == PREFILL
    ensures |ReadFrame(n, f, tick).dev.queue| == |n.dev.queue| + 1
  {
    PushSeen(n.dev, f.sequence, PointOf(f, tick));
  }

  // A delivery turns a point in flight into a queued one, so the load is not lost on the way.
  lemma DeliveryFills(states: seq<Sys>, events: seq<Event>, k: nat)
    requires Run(states, events) && LosesNothing(events) && k < |events|
    requires events[k].Deliver? && states[k].channel[0].frame.kind.ApplyFrame?
    requires states[k].node.dev.state == PREFILL
    ensures
      var s, s' := states[k], states[k + 1];
      && |s'.node.dev.queue| == |s.node.dev.queue| + 1
      && s'.node.dev.state == PREFILL
      && Load(s') == Load(s)
  {
    RunKeepsInv(states, events, k);
    SequenceAgreement(states, events, k);
    var s := states[k];
    assert Enabled(s, events[k]) && states[k + 1] == Next(s, events[k]) by { hide Enabled, Next; }
    hide Run, Numbered, Ordered, SnapsOk, Phases, CreditOk, Initial,
         E.LogMatches, E.Conserved, E.StagedMatches, E.TakenMatches;
    AppliesWithout(s.channel, 0);
    assert Without(s.channel, 0) == s.channel[1..];
    AcceptedWhilePrefilling(s.node, s.channel[0].frame, events[k].tick);
    hide Applies, ReadFrame;
  }

  // And once eight points have arrived, the next Take runs.
  lemma FullPrefillRuns(d: RobotTrajectory.Device, tick: U32)
    requires WellFormed(d) && d.state == PREFILL && |d.queue| >= RobotTrajectory.PREFILL_COUNT
    ensures Take(d, tick).0.state == RUNNING || Take(d, tick).0.counts.expired != d.counts.expired
    ensures Take(d, tick).1.TakePoint? || Take(d, tick).0.holdReason != HOLD_REASON_NONE
  {
  }

  // Nothing is confirmed before the device runs, and it runs only with eight points queued.
  lemma NodeRunsOnlyWithEightPoints(n: E.Node, e: E.Event)
    requires E.Inv(n) && E.Enabled(n, e) && n.dev.state != RUNNING && n.log == []
    requires |n.dev.queue| < RobotTrajectory.PREFILL_COUNT
    ensures E.Next(n, e).dev.state != RUNNING && E.Next(n, e).log == []
  {
    hide E.LogMatches, E.Conserved, E.StagedMatches, E.TakenMatches;
  }

  lemma RunsOnlyWithEightPoints(s: Sys, e: Event)
    requires Inv(s) && Enabled(s, e) && s.node.dev.state != RUNNING && s.node.log == []
    requires |s.node.dev.queue| < RobotTrajectory.PREFILL_COUNT
    ensures Next(s, e).node.dev.state != RUNNING && Next(s, e).node.log == []
    ensures Next(s, e).cfg == s.cfg
  {
    if e.DeviceStep? {
      NodeRunsOnlyWithEightPoints(s.node, e.event);
      hide E.Next;
    }
    hide Ordered, SnapsOk, CreditOk, Phases, Numbered, E.LogMatches, E.Conserved, E.StagedMatches, E.TakenMatches,
         Decide, Complete, ApplyCall;
  }

  // A high watermark below the prefill count passes the constructor's check, and then no
  // run whatever reaches RUNNING or executes a point.
  lemma {:induction false} LowWatermarkStarves(states: seq<Sys>, events: seq<Event>, k: nat)
    requires Run(states, events) && k < |states| && states[0].cfg.high < RobotTrajectory.PREFILL_COUNT
    ensures states[k].cfg == states[0].cfg
    ensures states[k].node.dev.state != RUNNING && states[k].node.log == []
    decreases k
  {
    if k > 0 {
      LowWatermarkStarves(states, events, k - 1);
      CreditSafety(states, events, k - 1);
      RunKeepsInv(states, events, k - 1);
      hide Inv, Enabled, Next, Initial;
      assert Enabled(states[k - 1], events[k - 1]) && states[k] == Next(states[k - 1], events[k - 1]);
      RunsOnlyWithEightPoints(states[k - 1], events[k - 1]);
    }
  }
}
