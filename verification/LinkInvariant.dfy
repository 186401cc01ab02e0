// What holds in every state of the joined system, and why each step keeps it.
module LinkInvariant {
  import opened Words
  import opened RobotTrajectory
  import opened CspScheduler
  import opened Link
  import E = Execution

  // --------------------------------------------------------------- the frame channel

  predicate ChannelOk(sent: seq<Frame>, channel: seq<Packet>, received: nat) {
    && received <= |sent|
    && (forall i :: 0 <= i < |channel| ==>
          received <= channel[i].index < |sent| && sent[channel[i].index] == channel[i].frame)
    && (forall i, j :: 0 <= i < j < |channel| ==> channel[i].index < channel[j].index)
  }

  predicate SequencesCount(sent: seq<Frame>) {
    forall i :: 0 <= i < |sent| ==> sent[i].sequence == i % 0x100
  }

  predicate Numbered(s: Sys) {
    && ChannelOk(s.sent, s.channel, s.received)
    && SequencesCount(s.sent)
    && s.host.nextSequence == |s.sent| % 0x100
    && (!s.pending.Quiet? ==> s.pending.action != NoAction)
    && (s.pending.SentOut? ==> s.sent != [] && s.sent[|s.sent| - 1] == FrameOf(s.pending.action, s.pending.sequence))
  }

  function Applies(channel: seq<Packet>): nat {
    if channel == [] then 0
    else (if channel[0].frame.kind.ApplyFrame? then 1 else 0) + Applies(channel[1..])
  }

  predicate OnlyApplies(channel: seq<Packet>) {
    forall i :: 0 <= i < |channel| ==> channel[i].frame.kind.ApplyFrame?
  }

  predicate NoReset(channel: seq<Packet>) {
    forall i :: 0 <= i < |channel| ==> !channel[i].frame.kind.ResetFrame?
  }

  // Nothing is applied behind a RESET that is still on its way.
  predicate NoApplyBehindReset(channel: seq<Packet>) {
    forall i, j :: 0 <= i < j < |channel| && channel[i].frame.kind.ResetFrame? ==>
      !channel[j].frame.kind.ApplyFrame?
  }

  predicate AppliesWithin(channel: seq<Packet>, limit: int) {
    forall i :: 0 <= i < |channel| && channel[i].frame.kind.ApplyFrame? ==> channel[i].index < limit
  }

  // ------------------------------------------------------------------ the five parts

  predicate DeviceOk(s: Sys) {
    && E.Inv(s.node)
    && s.node.dev.counts.accepted == s.accepted % 0x1_0000_0000
    && (s.node.dev.expected.Some? ==> s.received > 0 && s.node.dev.expected.value == s.received % 0x100)
  }

  // Points of the current generation are consecutive sent frames, the RESET first.
  predicate Ordered(s: Sys) {
    && s.resetIndex + |s.node.accepted| <= |s.sent|
    && (s.node.accepted != [] ==> s.resetIndex + |s.node.accepted| <= s.received)
    && (s.node.dev.expected.Some? ==> s.node.accepted != [] && s.resetIndex + |s.node.accepted| == s.received)
    && forall i :: 0 <= i < |s.node.accepted| ==> CarriedBy(s.node.accepted[i], s.sent[s.resetIndex + i], i)
  }

  predicate CarriedBy(p: Point, f: Frame, i: nat) {
    && p.sequence == f.sequence && p.target == f.target && p.validityMs == VALIDITY_MS
    && f.kind == if i == 0 then ResetFrame else ApplyFrame
  }

  predicate SnapOk(accepted: nat, received: nat, depth: nat, snap: Snap) {
    && snap.accepted <= accepted && snap.received <= received
    && accepted - snap.accepted <= received - snap.received
    && depth <= snap.status.depth + accepted - snap.accepted
    && snap.status.accepted == snap.accepted % 0x1_0000
    && (snap.status.expected.Some? ==> snap.status.expected.value == snap.received % 0x100)
  }

  predicate AllOk(accepted: nat, received: nat, depth: nat, snaps: seq<Snap>) {
    forall i :: 0 <= i < |snaps| ==> SnapOk(accepted, received, depth, snaps[i])
  }

  // No status in the channel counts fewer accepted points than one before it, or than `floor`.
  predicate Ascending(floor: nat, snaps: seq<Snap>) {
    && (forall i :: 0 <= i < |snaps| ==> floor <= snaps[i].accepted)
    && (forall i, j :: 0 <= i < j < |snaps| ==> snaps[i].accepted <= snaps[j].accepted)
  }

  predicate SnapsOk(s: Sys) {
    && AllOk(s.accepted, s.received, |s.node.dev.queue|, s.statuses)
    && Ascending(if s.known.Some? then s.known.value.accepted else 0, s.statuses)
    && (s.known.Some? <==> s.host.remote.Some?)
    && (s.known.Some? ==>
          && s.host.remote.value == s.known.value.status
          && SnapOk(s.accepted, s.received, |s.node.dev.queue|, s.known.value))
  }

  predicate Phases(s: Sys) {
    && Quiescent(s.host.terminal)
    && NoApplyBehindReset(s.channel)
    && (s.host.stream == StartPending ==> !s.host.credit.tracking)
    && (s.host.stream == ResetAwaitingAck ==>
          && s.pending.Quiet? && !s.host.credit.tracking
          && s.sent != [] && s.sent[|s.sent| - 1].kind.ResetFrame?
          && s.host.pendingReset == s.sent[|s.sent| - 1].sequence)
    && (s.host.stream == Streaming ==> s.host.credit.tracking && OnlyApplies(s.channel))
    && (s.host.credit.tracking ==> NoReset(s.channel) && s.known.Some?)
    && (!s.pending.Quiet? ==>
          match s.pending.action
          case NoAction => true
          case Apply(_) => s.host.stream != ResetAwaitingAck && NoReset(s.channel)
          case ResetApply(_) =>
            s.host.stream != ResetAwaitingAck && s.host.stream != Streaming && !s.host.credit.tracking
          case Hold(_) => s.host.stream != ResetAwaitingAck && s.host.stream != Streaming)
  }

  function ApplyDecided(p: Pending): nat { if p.Decided? && p.action.Apply? then 1 else 0 }

  function ApplySentOut(p: Pending): nat { if p.SentOut? && p.action.Apply? then 1 else 0 }

  // Points on the device, on the way to it and about to be sent.
  function Load(s: Sys): nat { |s.node.dev.queue| + Applies(s.channel) + ApplyDecided(s.pending) }

  predicate CreditOk(s: Sys) {
    && ValidConfig(s.cfg)
    && Load(s) <= s.cfg.high
    && (s.host.credit.tracking ==> s.known.Some? && Tracked(s))
    && (s.node.dev.expected.Some? ==>
          && AppliesWithin(s.channel, s.received + s.cfg.high)
          && (ApplyDecided(s.pending) == 1 ==> |s.sent| < s.received + s.cfg.high))
    && (s.host.stream == Streaming ==>
          && |s.sent| == s.base.sent + s.host.credit.sent + ApplySentOut(s.pending)
          && (s.node.dev.expected.Some? ==> s.received - s.base.sent == s.accepted - s.base.accepted))
  }

  // The host's two counts bracket the truth: at least what arrived or still travels was
  // sent, and at most what the last status showed is acknowledged.
  predicate Tracked(s: Sys)
    requires s.known.Some?
  {
    var c := s.host.credit;
    && s.base.accepted <= s.accepted
    && s.accepted - s.base.accepted + Applies(s.channel) <= c.sent + ApplySentOut(s.pending)
    && s.base.accepted + c.accepted <= s.known.value.accepted
    && c.lastAccepted == (s.base.accepted + c.accepted) % 0x1_0000
  }

  predicate Inv(s: Sys) {
    Numbered(s) && DeviceOk(s) && Ordered(s) && SnapsOk(s) && Phases(s) && CreditOk(s)
  }

  lemma InitialHolds(s: Sys)
    requires Initial(s)
    ensures Inv(s)
  {
    E.StartHolds(s.node.image);
  }

  // ------------------------------------------------------- sequences of packets

  lemma {:induction false} AppliesAppend(channel: seq<Packet>, p: Packet)
    ensures Applies(channel + [p]) == Applies(channel) + if p.frame.kind.ApplyFrame? then 1 else 0
    decreases |channel|
  {
    if channel == [] {
      assert channel + [p] == [p];
    } else {
      assert (channel + [p])[1..] == channel[1..] + [p];
      AppliesAppend(channel[1..], p);
    }
  }

  lemma {:induction false} AppliesWithout(channel: seq<Packet>, k: nat)
    requires k < |channel|
    ensures Applies(Without(channel, k)) == Applies(channel) - if channel[k].frame.kind.ApplyFrame? then 1 else 0
    decreases |channel|
  {
    if k == 0 {
      assert Without(channel, 0) == channel[1..];
    } else {
      assert Without(channel, k)[1..] == Without(channel[1..], k - 1);
      AppliesWithout(channel[1..], k - 1);
    }
  }

  lemma {:induction false} NoApplies(channel: seq<Packet>)
    requires forall i :: 0 <= i < |channel| ==> !channel[i].frame.kind.ApplyFrame?
    ensures Applies(channel) == 0
    decreases |channel|
  {
    if channel != [] {
      NoApplies(channel[1..]);
    }
  }

  // -------------------------------------------------------------- what the host does

  predicate Quiescent(stream: Stream) {
    stream != StartPending && stream != ResetAwaitingAck && stream != Streaming
  }

  // The link's view of the host is left alone.
  predicate SameWire(h: Host, h': Host) {
    h'.remote == h.remote && h'.nextSequence == h.nextSequence && h'.pendingReset == h.pendingReset
  }

  predicate StaysOrRests(h: Host, h': Host) {
    h'.credit == h.credit && (h'.stream == h.stream || Quiescent(h'.stream))
  }

  lemma CallEffect(c: Config, h: Host, call: Call)
    requires Quiescent(h.terminal)
    ensures
      var h' := ApplyCall(c, h, call);
      && Quiescent(h'.terminal) && SameWire(h, h')
      && (StaysOrRests(h, h') || (h'.stream == StartPending && !h'.credit.tracking))
  {
  }

  predicate Acknowledges(h: Host, h': Host) {
    && h.stream == ResetAwaitingAck && h'.stream == Streaming
    && h.remote.Some?
    && RemoteActive(h.remote.value)
    && h.remote.value.expected == Some(Inc8(h.pendingReset))
    && h'.credit == Credit(0, 0, true, h.remote.value.accepted, h.remote.value.executed)
  }

  // What a cycle's first half may do.
  predicate CycleEffect(c: Config, h: Host, t: Clock, h': Host, action: Action) {
    && Quiescent(h'.terminal) && SameWire(h, h')
    && match action
       case NoAction => StaysOrRests(h, h') || (Acknowledges(h, h') && t.remoteFresh)
       case ResetApply(_) => h'.credit == h.credit && h.stream == StartPending == h'.stream
       case Hold(_) => h'.credit == h.credit && Quiescent(h'.stream)
       case Apply(_) =>
         && h'.credit == h.credit && h.stream == Streaming == h'.stream
         && h.remote.Some? && Occupied(h.remote.value, h.credit) < c.high
  }

  lemma WithoutPointEffect(c: Config, h: Host, t: Clock, mayApply: bool)
    requires Quiescent(h.terminal) && h.stream == Streaming && h.remote.Some?
    requires mayApply ==> Occupied(h.remote.value, h.credit) < c.high
    ensures CycleEffect(c, h, t, DecideWithoutPoint(h, t, mayApply).0, DecideWithoutPoint(h, t, mayApply).1)
  {
  }

  lemma StreamingEffect(c: Config, h: Host, t: Clock)
    requires Quiescent(h.terminal) && h.stream == Streaming
    ensures CycleEffect(c, h, t, DecideStreaming(c, h, t).0, DecideStreaming(c, h, t).1)
  {
    var h1 := if h.queue != [] then h.(emptyWaiting := false) else h;
    if h1.remote.Some? {
      WithoutPointEffect(c, h1, t, MayApply(c, h1.remote.value, h1.credit));
    }
    hide DecideWithoutPoint;
  }

  lemma AckEffect(c: Config, h: Host, t: Clock)
    requires Quiescent(h.terminal) && h.stream == ResetAwaitingAck
    ensures CycleEffect(c, h, t, DecideAck(h, t).0, DecideAck(h, t).1)
  {
  }

  lemma DecideEffect(c: Config, h: Host, t: Clock)
    requires Quiescent(h.terminal)
    ensures CycleEffect(c, h, t, Decide(c, h, t).0, Decide(c, h, t).1)
  {
    match h.stream
    case ResetAwaitingAck => AckEffect(c, h, t); hide CycleEffect, DecideAck;
    case Streaming => StreamingEffect(c, h, t); hide CycleEffect, DecideStreaming;
    case _ =>
  }

  lemma CompleteEffect(h: Host, action: Action, ok: bool, sequence: U8)
    requires Quiescent(h.terminal) && action != NoAction
    requires action.ResetApply? || action.Hold? ==> h.stream != ResetAwaitingAck && h.stream != Streaming
    ensures
      var h' := Complete(h, action, ok, sequence);
      && Quiescent(h'.terminal)
      && h'.remote == h.remote && h'.nextSequence == h.nextSequence
      && h'.credit == (if ok && action.Apply? then h.credit.(sent := h.credit.sent + 1) else h.credit)
      && (|| (h'.stream == h.stream && h'.pendingReset == h.pendingReset)
          || Quiescent(h'.stream)
          || (&& ok && action.ResetApply? && h.stream == StartPending
              && h'.stream == ResetAwaitingAck && h'.pendingReset == sequence))
  {
  }

  // ------------------------------------------------------------ what the device does

  // Left to itself the device accepts nothing, and its queue only shrinks.
  predicate Settles(n: E.Node, n': E.Node) {
    && n'.accepted == n.accepted
    && n'.dev.counts.accepted == n.dev.counts.accepted
    && |n'.dev.queue| <= |n.dev.queue|
    && (n'.dev.expected == n.dev.expected || n'.dev.expected == None)
  }

  lemma TakeSettles(n: E.Node, e: E.Event)
    requires WellFormed(n.dev) && E.Enabled(n, e) && e.TestTake?
    ensures Settles(n, E.Next(n, e))
  {
  }

  lemma OtherSettles(n: E.Node, e: E.Event)
    requires WellFormed(n.dev) && E.Enabled(n, e) && !e.ResetFrame? && !e.ApplyFrame? && !e.TestTake?
    ensures Settles(n, E.Next(n, e))
  {
  }

  lemma InternalEffect(n: E.Node, e: E.Event)
    requires E.Inv(n) && E.Enabled(n, e) && !e.ResetFrame? && !e.ApplyFrame?
    ensures E.Inv(E.Next(n, e)) && Settles(n, E.Next(n, e))
  {
    E.StepKeepsInv(n, e);
    if e.TestTake? {
      TakeSettles(n, e);
    } else {
      OtherSettles(n, e);
    }
    hide E.Next, Settles, E.Conserved, E.LogMatches, E.StagedMatches, E.TakenMatches;
  }

  lemma PushEffect(d: RobotTrajectory.Device, p: Point)
    requires WellFormed(d)
    ensures
      var (d', result) := Push(d, p);
      if result.PushOk? then
        && d.expected == Some(p.sequence) && d'.expected == Some(Inc8(p.sequence))
        && d'.counts.accepted == Inc32(d.counts.accepted) && |d'.queue| == |d.queue| + 1
      else
        && d'.expected == None && d'.queue == [] && d'.counts.accepted == d.counts.accepted
        && (d.expected == Some(p.sequence) ==> |d.queue| >= RobotTrajectory.CAPACITY)
  {
  }

  // The device's answer to one frame.
  predicate ReadOutcome(n: E.Node, f: Frame, tick: U32, n': E.Node) {
    if f.kind.ResetFrame? then
      && n'.dev.expected == Some(Inc8(f.sequence)) && n'.dev.counts.accepted == Inc32(n.dev.counts.accepted)
      && n'.accepted == [PointOf(f, tick)] && |n'.dev.queue| == 1
    else if Accepts(n.dev, f, tick) then
      && f.kind.ApplyFrame? && n.dev.expected == Some(f.sequence)
      && n'.dev.expected == Some(Inc8(f.sequence)) && n'.dev.counts.accepted == Inc32(n.dev.counts.accepted)
      && n'.accepted == n.accepted + [PointOf(f, tick)] && |n'.dev.queue| == |n.dev.queue| + 1
    else
      && n'.dev.expected == None && n'.dev.queue == [] && n'.dev.counts.accepted == n.dev.counts.accepted
      && n'.accepted == n.accepted
      && (f.kind.ApplyFrame? && n.dev.expected == Some(f.sequence) ==> |n.dev.queue| >= RobotTrajectory.CAPACITY)
  }

  lemma ReadEffect(n: E.Node, f: Frame, tick: U32)
    requires E.Inv(n)
    requires f.kind.ResetFrame? ==> E.Enabled(n, E.ResetFrame(PointOf(f, tick)))
    ensures E.Inv(ReadFrame(n, f, tick)) && ReadOutcome(n, f, tick, ReadFrame(n, f, tick))
  {
    var p := PointOf(f, tick);
    var seen := E.Next(n, E.Received(f.sequence));
    E.StepKeepsInv(n, E.Received(f.sequence));
    match f.kind
    case HoldFrame =>
      E.StepKeepsInv(seen, E.HoldDemand(HOLD_REASON_EXPLICIT_0X180));
    case ResetFrame =>
      E.StepKeepsInv(seen, E.ResetFrame(p));
    case ApplyFrame =>
      E.StepKeepsInv(seen, E.ApplyFrame(p));
      var pushed := E.Next(seen, E.ApplyFrame(p));
      var result := Push(seen.dev, p).1;
      E.StepKeepsInv(pushed, E.Rejected(Some(f.sequence), RejectReason(result)));
      PushSeen(n.dev, f.sequence, p);
      PushEffect(n.dev, p);
      PushEffect(seen.dev, p);
  }

  // Recording a frame as received does not change what becomes of it.
  lemma PushSeen(d: RobotTrajectory.Device, sequence: U8, p: Point)
    ensures Push(RecordReceived(d, sequence), p).1 == Push(d, p).1
  {
  }
}
