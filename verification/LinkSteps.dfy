// Every step of the joined system keeps its invariant.
module LinkSteps {
  import opened Words
  import opened RobotTrajectory
  import opened CspScheduler
  import opened Link
  import opened LinkInvariant
  import E = Execution

  // ------------------------------------------------------------------ host steps

  lemma HostCallKeepsPhases(s: Sys, call: Call)
    requires Inv(s)
    ensures Phases(Next(s, HostCall(call))) && Numbered(Next(s, HostCall(call))) && SnapsOk(Next(s, HostCall(call)))
  {
    CallEffect(s.cfg, s.host, call);
    hide ApplyCall, NoReset, OnlyApplies, NoApplyBehindReset, SnapOk, AllOk, Ascending, ChannelOk, SequencesCount,
         DeviceOk, Ordered, CreditOk;
  }

  lemma HostCallKeepsCredit(s: Sys, call: Call)
    requires Inv(s)
    ensures CreditOk(Next(s, HostCall(call)))
    ensures DeviceOk(Next(s, HostCall(call))) && Ordered(Next(s, HostCall(call)))
  {
    CallEffect(s.cfg, s.host, call);
    hide ApplyCall, E.Inv, AppliesWithin, Applies, CarriedBy, Numbered, SnapsOk, OnlyApplies, NoReset,
         NoApplyBehindReset;
  }

  lemma HostCallKeepsInv(s: Sys, call: Call)
    requires Inv(s)
    ensures Inv(Next(s, HostCall(call)))
  {
    HostCallKeepsPhases(s, call);
    HostCallKeepsCredit(s, call);
    hide Next, Numbered, Phases, SnapsOk, DeviceOk, Ordered, CreditOk;
  }

  // A fresh status that names the RESET as last accepted was composed after the device
  // read everything sent so far.
  lemma AcknowledgedMeansRead(s: Sys)
    requires Inv(s) && s.host.stream == ResetAwaitingAck && s.host.remote.Some?
    requires s.host.remote.value.expected == Some(Inc8(s.host.pendingReset))
    requires |s.sent| < s.known.value.received + 0x100
    ensures s.known.value.received == s.received == |s.sent|
    ensures s.known.value.accepted == s.accepted
    ensures s.channel == []
  {
    hide E.Inv, Ordered, CreditOk, CarriedBy;
    assert s.channel != [] ==> s.received <= s.channel[0].index < |s.sent|;
    var snap := s.known.value;
    assert SnapOk(s.accepted, s.received, |s.node.dev.queue|, snap);
    IncrementedCount(|s.sent| - 1);
    SameByte(|s.sent|, snap.received);
  }

  lemma AcknowledgeKeepsInv(s: Sys, t: Clock)
    requires Inv(s) && Enabled(s, HostDecide(t))
    requires Acknowledges(s.host, Decide(s.cfg, s.host, t).0) && t.remoteFresh
    requires Decide(s.cfg, s.host, t).1.NoAction?
    ensures Inv(Next(s, HostDecide(t)))
  {
    hide E.Inv;
    AcknowledgedMeansRead(s);
    DecideEffect(s.cfg, s.host, t);
    hide Decide, Inc8;
  }

  lemma DecidedApplyFits(s: Sys)
    requires Inv(s) && s.pending.Quiet? && s.host.stream == Streaming && s.host.remote.Some?
    requires Occupied(s.host.remote.value, s.host.credit) < s.cfg.high
    ensures |s.node.dev.queue| + Applies(s.channel) < s.cfg.high
    ensures s.node.dev.expected.Some? ==> |s.sent| < s.received + s.cfg.high
  {
    hide E.Inv, Applies, OnlyApplies, NoReset, AppliesWithin, NoApplyBehindReset, CarriedBy, ChannelOk, SequencesCount;
  }

  lemma DecideApplyKeepsInv(s: Sys, t: Clock)
    requires Inv(s) && Enabled(s, HostDecide(t)) && Decide(s.cfg, s.host, t).1.Apply?
    ensures Inv(Next(s, HostDecide(t)))
  {
    DecideEffect(s.cfg, s.host, t);
    DecidedApplyFits(s);
    hide Decide, E.Inv, AppliesWithin, NoApplyBehindReset,
         Applies, SnapOk, CarriedBy, ChannelOk, SequencesCount, Occupied;
  }

  // A cycle that neither acknowledges nor applies.
  lemma OtherEffect(c: Config, h: Host, t: Clock)
    requires Quiescent(h.terminal)
    requires !Decide(c, h, t).1.Apply? && !Acknowledges(h, Decide(c, h, t).0)
    ensures
      var (h', action) := Decide(c, h, t);
      && Quiescent(h'.terminal) && StaysOrRests(h, h')
      && h'.remote == h.remote && h'.nextSequence == h.nextSequence && h'.pendingReset == h.pendingReset
      && (action.ResetApply? ==> h.stream == StartPending == h'.stream)
      && (action.Hold? ==> Quiescent(h'.stream))
  {
    DecideEffect(c, h, t);
    hide Decide, Acknowledges, Occupied;
  }

  lemma DecideOtherKeepsPhases(s: Sys, t: Clock)
    requires Inv(s) && Enabled(s, HostDecide(t)) && !Decide(s.cfg, s.host, t).1.Apply?
    requires !Acknowledges(s.host, Decide(s.cfg, s.host, t).0)
    ensures Phases(Next(s, HostDecide(t)))
  {
    OtherEffect(s.cfg, s.host, t);
    hide Decide, NoApplyBehindReset, NoReset, OnlyApplies, Acknowledges, DeviceOk, Ordered, SnapsOk, CreditOk,
         ChannelOk, SequencesCount;
  }

  lemma DecideOtherKeepsRest(s: Sys, t: Clock)
    requires Inv(s) && Enabled(s, HostDecide(t)) && !Decide(s.cfg, s.host, t).1.Apply?
    requires !Acknowledges(s.host, Decide(s.cfg, s.host, t).0)
    ensures
      var s' := Next(s, HostDecide(t));
      Numbered(s') && DeviceOk(s') && Ordered(s') && SnapsOk(s') && CreditOk(s')
  {
    OtherEffect(s.cfg, s.host, t);
    hide Decide, E.Inv, AppliesWithin, Acknowledges, Applies, SnapOk, AllOk, Ascending, CarriedBy, ChannelOk,
         SequencesCount, Phases;
  }

  lemma DecideOtherKeepsInv(s: Sys, t: Clock)
    requires Inv(s) && Enabled(s, HostDecide(t)) && !Decide(s.cfg, s.host, t).1.Apply?
    requires !Acknowledges(s.host, Decide(s.cfg, s.host, t).0)
    ensures Inv(Next(s, HostDecide(t)))
  {
    DecideOtherKeepsPhases(s, t);
    DecideOtherKeepsRest(s, t);
    hide Next, Enabled, Decide, Acknowledges, Numbered, DeviceOk, Ordered, SnapsOk, Phases, CreditOk;
  }

  lemma DecideKeepsInv(s: Sys, t: Clock)
    requires Inv(s) && Enabled(s, HostDecide(t))
    ensures Inv(Next(s, HostDecide(t)))
  {
    DecideEffect(s.cfg, s.host, t);
    hide Decide, Inv, Next, StaysOrRests, SameWire;
    if Decide(s.cfg, s.host, t).1.Apply? {
      DecideApplyKeepsInv(s, t);
    } else if Acknowledges(s.host, Decide(s.cfg, s.host, t).0) {
      AcknowledgeKeepsInv(s, t);
    } else {
      DecideOtherKeepsInv(s, t);
    }
  }

  lemma FailsKeepsInv(s: Sys)
    requires Inv(s) && Enabled(s, LinkFails)
    ensures Inv(Next(s, LinkFails))
  {
    CompleteEffect(s.host, s.pending.action, false, 0);
    hide Complete, E.Inv, NoReset, AppliesWithin, NoApplyBehindReset, OnlyApplies, Ordered, DeviceOk,
         Applies, SnapOk, CarriedBy, ChannelOk, SequencesCount;
  }

  lemma CompleteKeepsPhases(s: Sys)
    requires Inv(s) && Enabled(s, HostComplete)
    ensures Phases(Next(s, HostComplete)) && Numbered(Next(s, HostComplete)) && SnapsOk(Next(s, HostComplete))
  {
    CompleteEffect(s.host, s.pending.action, true, s.pending.sequence);
    hide Complete, NoReset, NoApplyBehindReset, OnlyApplies, DeviceOk, Ordered, CreditOk, SnapOk,
         ChannelOk, SequencesCount;
  }

  lemma CompleteKeepsCredit(s: Sys)
    requires Inv(s) && Enabled(s, HostComplete)
    ensures CreditOk(Next(s, HostComplete))
  {
    CompleteEffect(s.host, s.pending.action, true, s.pending.sequence);
    hide Complete, NoReset, NoApplyBehindReset, OnlyApplies, DeviceOk, Ordered, SnapsOk, AppliesWithin,
         ChannelOk, SequencesCount, Applies;
  }

  lemma CompleteKeepsInv(s: Sys)
    requires Inv(s) && Enabled(s, HostComplete)
    ensures Inv(Next(s, HostComplete))
  {
    CompleteKeepsPhases(s);
    CompleteKeepsCredit(s);
    hide Complete, E.Inv, CarriedBy, Phases, Numbered, SnapsOk, CreditOk;
  }

  lemma FrameAppended(sent: seq<Frame>, channel: seq<Packet>, received: nat, f: Frame)
    requires ChannelOk(sent, channel, received) && SequencesCount(sent) && f.sequence == |sent| % 0x100
    ensures ChannelOk(sent + [f], channel + [Packet(|sent|, f)], received) && SequencesCount(sent + [f])
  {
  }

  lemma TakesKeepsNumbered(s: Sys)
    requires Inv(s) && Enabled(s, LinkTakes)
    ensures Numbered(Next(s, LinkTakes))
  {
    hide Applies, SnapsOk, Phases, CreditOk, DeviceOk, Ordered;
    FrameAppended(s.sent, s.channel, s.received, FrameOf(s.pending.action, s.host.nextSequence));
    IncrementedCount(|s.sent|);
    hide ChannelOk, SequencesCount, Inc8;
  }

  lemma TakesKeepsOrder(s: Sys)
    requires Inv(s) && Enabled(s, LinkTakes)
    ensures Ordered(Next(s, LinkTakes))
  {
    hide Applies, SnapsOk, Phases, CreditOk, DeviceOk, SequencesCount, ChannelOk, CarriedBy;
  }

  lemma TakesKeepsPhases(s: Sys)
    requires Inv(s) && Enabled(s, LinkTakes)
    ensures Phases(Next(s, LinkTakes)) && SnapsOk(Next(s, LinkTakes)) && DeviceOk(Next(s, LinkTakes))
  {
    hide E.Inv, Applies, SnapOk, CarriedBy, CreditOk, Ordered, SequencesCount, ChannelOk;
  }

  lemma TakesKeepsCredit(s: Sys)
    requires Inv(s) && Enabled(s, LinkTakes)
    ensures CreditOk(Next(s, LinkTakes))
  {
    var f := FrameOf(s.pending.action, s.host.nextSequence);
    AppliesAppend(s.channel, Packet(|s.sent|, f));
    hide E.Inv, Applies, SnapOk, CarriedBy, SnapsOk, DeviceOk, Ordered, SequencesCount, ChannelOk,
         NoReset, NoApplyBehindReset, OnlyApplies;
  }

  lemma TakesKeepsInv(s: Sys)
    requires Inv(s) && Enabled(s, LinkTakes)
    ensures Inv(Next(s, LinkTakes))
  {
    TakesKeepsNumbered(s);
    TakesKeepsOrder(s);
    TakesKeepsPhases(s);
    TakesKeepsCredit(s);
    hide Next, Numbered, Phases, SnapsOk, DeviceOk, Ordered, CreditOk;
  }

  // ------------------------------------------------------------------ device steps

  // A status stays true as the device's depth falls or its counts grow together.
  lemma SnapsAge(snaps: seq<Snap>, accepted: nat, received: nat, depth: nat,
                 accepted': nat, received': nat, depth': nat)
    requires AllOk(accepted, received, depth, snaps)
    requires accepted <= accepted' && accepted' - accepted <= received' - received
    requires depth' - depth <= accepted' - accepted
    ensures AllOk(accepted', received', depth', snaps)
  {
    forall i | 0 <= i < |snaps| ensures SnapOk(accepted', received', depth', snaps[i]) {
      assert SnapOk(accepted, received, depth, snaps[i]);
    }
  }

  lemma DeviceKeepsSnaps(s: Sys, e: Event)
    requires Inv(s) && Enabled(s, e) && e.DeviceStep?
    ensures SnapsOk(Next(s, e))
  {
    InternalEffect(s.node, e.event);
    SnapsAge(s.statuses, s.accepted, s.received, |s.node.dev.queue|,
             s.accepted, s.received, |E.Next(s.node, e.event).dev.queue|);
    hide E.Inv, E.Next, E.Enabled, DeviceOk, Ordered, Phases, Numbered, CreditOk, AllOk, Ascending;
  }

  lemma DeviceKeepsRest(s: Sys, e: Event)
    requires Inv(s) && Enabled(s, e) && e.DeviceStep?
    ensures Numbered(Next(s, e)) && DeviceOk(Next(s, e)) && Ordered(Next(s, e)) && Phases(Next(s, e))
  {
    hide Applies, ChannelOk, SequencesCount, OnlyApplies, NoReset, NoApplyBehindReset, E.Next, E.Enabled,
         SnapsOk, CreditOk;
    InternalEffect(s.node, e.event);
    hide E.Inv, CarriedBy;
  }

  lemma DeviceKeepsCredit(s: Sys, e: Event)
    requires Inv(s) && Enabled(s, e) && e.DeviceStep?
    ensures CreditOk(Next(s, e))
  {
    hide Applies, Numbered, Ordered, Phases, E.Next, E.Enabled, SnapsOk, AppliesWithin;
    InternalEffect(s.node, e.event);
    hide E.Inv;
  }

  lemma DeviceKeepsInv(s: Sys, e: Event)
    requires Inv(s) && Enabled(s, e) && e.DeviceStep?
    ensures Inv(Next(s, e))
  {
    DeviceKeepsSnaps(s, e);
    DeviceKeepsRest(s, e);
    DeviceKeepsCredit(s, e);
    hide Next, Enabled, Numbered, Phases, SnapsOk, DeviceOk, Ordered, CreditOk;
  }

  // ------------------------------------------------------------------ status steps

  lemma WiderCounter(n: nat)
    ensures (n % 0x1_0000_0000) % 0x1_0000 == n % 0x1_0000
  {
  }

  lemma ReportIsExact(s: Sys, hold: bool, stop: bool)
    requires Inv(s) && |s.node.dev.queue| <= RobotTrajectory.CAPACITY
    ensures SnapOk(s.accepted, s.received, |s.node.dev.queue|,
                   Snap(StatusOf(s.node.dev, hold, stop), s.accepted, s.received))
  {
    WiderCounter(s.accepted);
    hide E.Inv, Ordered, SnapsOk, Phases, CreditOk, Numbered;
  }

  lemma SnapAppended(floor: nat, snaps: seq<Snap>, snap: Snap, accepted: nat, received: nat, depth: nat)
    requires AllOk(accepted, received, depth, snaps) && Ascending(floor, snaps)
    requires SnapOk(accepted, received, depth, snap) && snap.accepted == accepted && floor <= accepted
    ensures AllOk(accepted, received, depth, snaps + [snap]) && Ascending(floor, snaps + [snap])
  {
  }

  lemma ReportKeepsSnaps(s: Sys, e: Event)
    requires Inv(s) && Enabled(s, e) && e.Report?
    ensures SnapsOk(Next(s, e))
  {
    ReportIsExact(s, e.safetyHold, e.quickStop);
    SnapAppended(if s.known.Some? then s.known.value.accepted else 0, s.statuses,
                 Snap(StatusOf(s.node.dev, e.safetyHold, e.quickStop), s.accepted, s.received),
                 s.accepted, s.received, |s.node.dev.queue|);
    hide SnapOk, StatusOf, Numbered, DeviceOk, Ordered, Phases, CreditOk, AllOk, Ascending;
  }

  lemma ReportKeepsRest(s: Sys, e: Event)
    requires Inv(s) && Enabled(s, e) && e.Report?
    ensures Numbered(Next(s, e)) && DeviceOk(Next(s, e)) && Ordered(Next(s, e))
    ensures Phases(Next(s, e)) && CreditOk(Next(s, e))
  {
    hide E.Inv, Applies, CarriedBy, ChannelOk, SequencesCount, OnlyApplies, NoReset, NoApplyBehindReset,
         AppliesWithin, StatusOf, SnapsOk;
  }

  lemma ReportKeepsInv(s: Sys, e: Event)
    requires Inv(s) && Enabled(s, e) && e.Report?
    ensures Inv(Next(s, e))
  {
    ReportKeepsSnaps(s, e);
    ReportKeepsRest(s, e);
    hide Next, Enabled, Numbered, Phases, SnapsOk, DeviceOk, Ordered, CreditOk;
  }

  lemma LoseStatusKeepsInv(s: Sys, e: Event)
    requires Inv(s) && Enabled(s, e) && e.LoseStatus?
    ensures Inv(Next(s, e))
  {
    hide E.Inv, Applies, CarriedBy, ChannelOk, SequencesCount, OnlyApplies, NoReset, NoApplyBehindReset, AppliesWithin;
    hide SnapOk;
  }

  lemma CreditedNeverOvertakes(credit: Credit, snap: Snap, base: nat)
    requires credit.lastAccepted == (base + credit.accepted) % 0x1_0000
    requires snap.status.accepted == snap.accepted % 0x1_0000
    requires base + credit.accepted <= snap.accepted
    ensures
      var c := Credited(credit, snap.status);
      && base + c.accepted <= snap.accepted && c.lastAccepted == (base + c.accepted) % 0x1_0000
      && c.sent == credit.sent && c.tracking == credit.tracking
  {
    var delta := Sub16(snap.status.accepted, credit.lastAccepted);
    var gap := snap.accepted - (base + credit.accepted);
    assert delta == gap % 0x1_0000 by { SubtractionWraps(snap.accepted, base + credit.accepted); }
    assert (base + credit.accepted + delta) % 0x1_0000 == snap.accepted % 0x1_0000 by {
      assert snap.accepted == base + credit.accepted + delta + (gap / 0x1_0000) * 0x1_0000;
    }
  }

  lemma SubtractionWraps(a: nat, b: nat)
    requires b <= a
    ensures Sub16(a % 0x1_0000, b % 0x1_0000) == (a - b) % 0x1_0000
  {
  }

  lemma StatusArrivesKeepsSnaps(s: Sys)
    requires Inv(s) && Enabled(s, StatusArrives)
    ensures SnapsOk(Next(s, StatusArrives))
  {
    hide SnapOk, Numbered, DeviceOk, Ordered, Phases, CreditOk, Credited;
  }

  lemma StatusArrivesKeepsPhases(s: Sys)
    requires Inv(s) && Enabled(s, StatusArrives)
    ensures Phases(Next(s, StatusArrives)) && Numbered(Next(s, StatusArrives))
  {
    hide ChannelOk, SequencesCount, OnlyApplies, NoReset, NoApplyBehindReset, DeviceOk, Ordered, CreditOk, SnapsOk,
         Sub16;
  }

  lemma StatusArrivesKeepsCredit(s: Sys)
    requires Inv(s) && Enabled(s, StatusArrives)
    ensures CreditOk(Next(s, StatusArrives))
  {
    hide Applies, AppliesWithin, Numbered, DeviceOk, Ordered, Phases, Credited;
    assert SnapOk(s.accepted, s.received, |s.node.dev.queue|, s.statuses[0]);
    assert s.known.Some? ==> s.known.value.accepted <= s.statuses[0].accepted;
    hide SnapsOk, AllOk, Ascending;
    if s.host.credit.tracking {
      CreditedNeverOvertakes(s.host.credit, s.statuses[0], s.base.accepted);
    }
    hide SnapOk;
  }

  lemma StatusArrivesKeepsDevice(s: Sys)
    requires Inv(s) && Enabled(s, StatusArrives)
    ensures DeviceOk(Next(s, StatusArrives)) && Ordered(Next(s, StatusArrives))
  {
    hide E.Inv, CarriedBy, Numbered, SnapsOk, Phases, CreditOk;
  }

  lemma StatusArrivesKeepsInv(s: Sys)
    requires Inv(s) && Enabled(s, StatusArrives)
    ensures Inv(Next(s, StatusArrives))
  {
    StatusArrivesKeepsSnaps(s);
    StatusArrivesKeepsPhases(s);
    StatusArrivesKeepsCredit(s);
    StatusArrivesKeepsDevice(s);
    hide Next, Enabled, Numbered, Phases, SnapsOk, DeviceOk, Ordered, CreditOk;
  }

  // ------------------------------------------------------------------- frame steps

  lemma AppliesWithinWithout(channel: seq<Packet>, limit: int, k: nat)
    requires AppliesWithin(channel, limit) && k < |channel|
    ensures AppliesWithin(Without(channel, k), limit)
  {
  }

  lemma LoseKeepsCredit(s: Sys, k: nat)
    requires Inv(s) && Enabled(s, Lose(k))
    ensures CreditOk(Next(s, Lose(k)))
  {
    hide Applies, Numbered, DeviceOk, Ordered, SnapsOk, Phases, Without;
    AppliesWithout(s.channel, k);
    if s.node.dev.expected.Some? {
      AppliesWithinWithout(s.channel, s.received + s.cfg.high, k);
    }
    hide AppliesWithin;
  }

  lemma LoseKeepsChannel(s: Sys, k: nat)
    requires Inv(s) && Enabled(s, Lose(k))
    ensures Numbered(Next(s, Lose(k))) && Phases(Next(s, Lose(k)))
  {
    hide E.Inv, SequencesCount, CreditOk, CarriedBy, SnapsOk, DeviceOk, Ordered;
  }

  lemma LoseKeepsRest(s: Sys, k: nat)
    requires Inv(s) && Enabled(s, Lose(k))
    ensures DeviceOk(Next(s, Lose(k))) && Ordered(Next(s, Lose(k))) && SnapsOk(Next(s, Lose(k)))
  {
    hide E.Inv, Numbered, Phases, CreditOk, CarriedBy, SnapOk, AllOk, Ascending, Without;
  }

  lemma LoseKeepsInv(s: Sys, k: nat)
    requires Inv(s) && Enabled(s, Lose(k))
    ensures Inv(Next(s, Lose(k)))
  {
    LoseKeepsCredit(s, k);
    LoseKeepsChannel(s, k);
    LoseKeepsRest(s, k);
    hide Next, Enabled, Numbered, Phases, SnapsOk, DeviceOk, Ordered, CreditOk;
  }

  // A frame that fails the check is a lost frame and one more entry in the reject count.
  lemma CorruptIsLoss(s: Sys, reason: U8)
    requires Enabled(s, Corrupt(reason))
    ensures
      && Enabled(s, Lose(0)) && Enabled(Next(s, Lose(0)), DeviceStep(E.Rejected(None, reason)))
      && Next(s, Corrupt(reason)) == Next(Next(s, Lose(0)), DeviceStep(E.Rejected(None, reason)))
  {
    assert Without(s.channel, 0) == s.channel[1..];
    hide E.Next;
  }

  lemma CorruptKeepsInv(s: Sys, reason: U8)
    requires Inv(s) && Enabled(s, Corrupt(reason))
    ensures Inv(Next(s, Corrupt(reason)))
  {
    hide Inv, Next;
    CorruptIsLoss(s, reason);
    LoseKeepsInv(s, 0);
    DeviceKeepsInv(Next(s, Lose(0)), DeviceStep(E.Rejected(None, reason)));
  }

  // A frame reaches an active device in order exactly when none before it was lost.
  lemma NoAliasing(s: Sys)
    requires Inv(s) && s.channel != [] && s.channel[0].frame.kind.ApplyFrame?
    requires s.node.dev.expected == Some(s.channel[0].frame.sequence)
    ensures s.channel[0].index == s.received
  {
    hide E.Inv, SnapsOk, Ordered, Phases, Applies, CarriedBy, Tracked;
    var p := s.channel[0];
    assert s.received <= p.index < |s.sent| && s.sent[p.index] == p.frame;
    assert p.frame.sequence == p.index % 0x100;
    assert p.index < s.received + s.cfg.high;
    SameByte(p.index, s.received);
  }

  lemma SameByte(a: nat, b: nat)
    requires b <= a < b + 0x100 && a % 0x100 == b % 0x100
    ensures a == b
  {
  }

  lemma IncrementedCount(n: nat)
    ensures Inc32(n % 0x1_0000_0000) == (n + 1) % 0x1_0000_0000
    ensures Inc8(n % 0x100) == (n + 1) % 0x100
  {
  }

  lemma DeliverKeepsDevice(s: Sys, e: Event)
    requires Inv(s) && Enabled(s, e) && e.Deliver?
    ensures DeviceOk(Next(s, e)) && Numbered(Next(s, e))
  {
    hide E.Inv, ReadFrame, Applies, SnapsOk, Ordered, Phases, CreditOk;
    var p := s.channel[0];
    ReadEffect(s.node, p.frame, e.tick);
    IncrementedCount(s.accepted);
    IncrementedCount(p.index);
    hide Accepts, Inc8, Inc32;
  }

  lemma DeliverApplyKeepsOrder(s: Sys, e: Event)
    requires Inv(s) && Enabled(s, e) && e.Deliver?
    requires s.channel[0].frame.kind.ApplyFrame? && Accepts(s.node.dev, s.channel[0].frame, e.tick)
    ensures Ordered(Next(s, e))
  {
    hide E.Inv, ReadFrame, Accepts, SnapsOk, Phases, CreditOk, SequencesCount;
    ReadEffect(s.node, s.channel[0].frame, e.tick);
    NoAliasing(s);
    assert s.sent[s.received] == s.channel[0].frame;
    hide DeviceOk, Numbered;
  }

  lemma DeliverOtherKeepsOrder(s: Sys, e: Event)
    requires Inv(s) && Enabled(s, e) && e.Deliver?
    requires !(s.channel[0].frame.kind.ApplyFrame? && Accepts(s.node.dev, s.channel[0].frame, e.tick))
    ensures Ordered(Next(s, e))
  {
    hide E.Inv, ReadFrame, SnapsOk, Phases, CreditOk, SequencesCount;
    var p := s.channel[0];
    ReadEffect(s.node, p.frame, e.tick);
    assert s.received <= p.index < |s.sent| && s.sent[p.index] == p.frame;
    hide DeviceOk, Numbered, Enabled, ChannelOk;
  }

  lemma DeliverKeepsSnaps(s: Sys, e: Event)
    requires Inv(s) && Enabled(s, e) && e.Deliver?
    ensures SnapsOk(Next(s, e))
  {
    hide E.Inv, ReadFrame, Applies, Phases, CreditOk, SequencesCount, Ordered, CarriedBy;
    var p := s.channel[0];
    assert s.received <= p.index;
    ReadEffect(s.node, p.frame, e.tick);
    hide Accepts, ChannelOk, DeviceOk;
    var s' := Next(s, e);
    SnapsAge(s.statuses, s.accepted, s.received, |s.node.dev.queue|, s'.accepted, s'.received, |s'.node.dev.queue|);
    hide AllOk, Ascending;
  }

  lemma DeliverKeepsPhases(s: Sys, e: Event)
    requires Inv(s) && Enabled(s, e) && e.Deliver?
    ensures Phases(Next(s, e))
  {
    hide E.Inv, ReadFrame, Accepts, Applies, CreditOk, SequencesCount, DeviceOk, Ordered, Numbered, SnapsOk;
  }

  lemma DeliverResetKeepsCredit(s: Sys, e: Event)
    requires Inv(s) && Enabled(s, e) && e.Deliver? && s.channel[0].frame.kind.ResetFrame?
    ensures CreditOk(Next(s, e))
  {
    ReadEffect(s.node, s.channel[0].frame, e.tick);
    NoApplies(s.channel);
    hide E.Inv, ReadFrame, Accepts, SequencesCount, DeviceOk, Ordered, Numbered, SnapsOk;
  }

  lemma DeliverApplyKeepsCredit(s: Sys, e: Event)
    requires Inv(s) && Enabled(s, e) && e.Deliver? && s.channel[0].frame.kind.ApplyFrame?
    ensures CreditOk(Next(s, e))
  {
    hide E.Inv, ReadFrame, SequencesCount, Ordered, SnapsOk;
    var p := s.channel[0];
    ReadEffect(s.node, p.frame, e.tick);
    if Accepts(s.node.dev, p.frame, e.tick) {
      NoAliasing(s);
    }
    assert s.received <= p.index;
    hide Accepts, DeviceOk, Numbered;
  }

  lemma DeliverHoldKeepsCredit(s: Sys, e: Event)
    requires Inv(s) && Enabled(s, e) && e.Deliver? && s.channel[0].frame.kind.HoldFrame?
    ensures CreditOk(Next(s, e))
  {
    ReadEffect(s.node, s.channel[0].frame, e.tick);
    hide E.Inv, ReadFrame, SequencesCount, DeviceOk, Ordered, Numbered, SnapsOk;
  }

  lemma DeliverKeepsInv(s: Sys, e: Event)
    requires Inv(s) && Enabled(s, e) && e.Deliver?
    ensures Inv(Next(s, e))
  {
    DeliverKeepsDevice(s, e);
    if s.channel[0].frame.kind.ApplyFrame? && Accepts(s.node.dev, s.channel[0].frame, e.tick) {
      DeliverApplyKeepsOrder(s, e);
    } else {
      DeliverOtherKeepsOrder(s, e);
    }
    DeliverKeepsSnaps(s, e);
    DeliverKeepsPhases(s, e);
    match s.channel[0].frame.kind {
      case ResetFrame => DeliverResetKeepsCredit(s, e);
      case ApplyFrame => DeliverApplyKeepsCredit(s, e);
      case HoldFrame => DeliverHoldKeepsCredit(s, e);
    }
    hide Next, Enabled, Numbered, Phases, SnapsOk, DeviceOk, Ordered, CreditOk, Accepts;
  }

  lemma StepKeepsInv(s: Sys, e: Event)
    requires Inv(s) && Enabled(s, e)
    ensures Inv(Next(s, e))
  {
    hide Inv, Next, Enabled;
    match e
    case HostCall(call) => HostCallKeepsInv(s, call);
    case HostDecide(t) => DecideKeepsInv(s, t);
    case LinkTakes => TakesKeepsInv(s);
    case LinkFails => FailsKeepsInv(s);
    case HostComplete => CompleteKeepsInv(s);
    case Deliver(_) => DeliverKeepsInv(s, e);
    case Lose(k) => LoseKeepsInv(s, k);
    case Corrupt(reason) => CorruptKeepsInv(s, reason);
    case DeviceStep(_) => DeviceKeepsInv(s, e);
    case Report(_, _) => ReportKeepsInv(s, e);
    case LoseStatus(_) => LoseStatusKeepsInv(s, e);
    case StatusArrives => StatusArrivesKeepsInv(s);
  }
}
