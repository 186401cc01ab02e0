// What the streaming protocol guarantees over every run, whatever is lost, delayed or
// interleaved.
module Streaming {
  import opened Words
  import opened RobotTrajectory
  import opened CspScheduler
  import opened Link
  import opened LinkInvariant
  import opened LinkSteps
  import E = Execution
  import Pdo

  lemma {:induction false} RunKeepsInv(states: seq<Sys>, events: seq<Event>, k: nat)
    requires Run(states, events) && k < |states|
    ensures Inv(states[k])
    decreases k
  {
    hide Inv, Next, Enabled, Initial;
    if k == 0 {
      InitialHolds(states[0]);
    } else {
      RunKeepsInv(states, events, k - 1);
      assert Enabled(states[k - 1], events[k - 1]) && states[k] == Next(states[k - 1], events[k - 1]);
      StepKeepsInv(states[k - 1], events[k - 1]);
    }
  }

  // ------------------------------------------------------------------- credit safety

  // Points on the device and on their way to it never exceed what the host counts as
  // occupied or in flight, but for the one it has sent and not yet counted, and stay within
  // the high watermark.
  lemma CreditSafety(states: seq<Sys>, events: seq<Event>, k: nat)
    requires Run(states, events) && k < |states|
    ensures
      var s := states[k];
      && |s.node.dev.queue| + Applies(s.channel) + ApplyDecided(s.pending) <= s.cfg.high
      && s.cfg.high <= RobotTrajectory.CAPACITY - QUEUE_RESERVE
      && (s.host.stream == CspScheduler.Streaming ==>
            && s.host.remote.Some?
            && |s.node.dev.queue| + Applies(s.channel)
               <= Occupied(s.host.remote.value, s.host.credit) + ApplySentOut(s.pending))
  {
    RunKeepsInv(states, events, k);
    hide E.Inv, Applies;
  }

  // So the device never finds its ring full.
  lemma PushNeverFull(states: seq<Sys>, events: seq<Event>, k: nat)
    requires Run(states, events) && k < |events|
    requires events[k].Deliver? && states[k].channel[0].frame.kind.ApplyFrame?
    ensures !Push(states[k].node.dev, PointOf(states[k].channel[0].frame, events[k].tick)).1.PushFull?
  {
    CreditSafety(states, events, k);
    hide Inv, Next, Enabled, Initial;
  }

  lemma OverflowOnlyWhenFull(s: Sys, e: Event)
    requires Enabled(s, e)
    requires e.Deliver? && s.channel[0].frame.kind.ApplyFrame? ==>
      !Push(s.node.dev, PointOf(s.channel[0].frame, e.tick)).1.PushFull?
    ensures Next(s, e).node.dev.counts.overflow == s.node.dev.counts.overflow
  {
    if e.Deliver? {
      PushSeen(s.node.dev, s.channel[0].frame.sequence, PointOf(s.channel[0].frame, e.tick));
    }
  }

  // The 0x204 status never reports an overflow.
  lemma {:induction false} OverflowNeverCounted(states: seq<Sys>, events: seq<Event>, k: nat)
    requires Run(states, events) && k < |states|
    ensures states[k].node.dev.counts.overflow == 0
    decreases k
  {
    if k > 0 {
      OverflowNeverCounted(states, events, k - 1);
      var s, e := states[k - 1], events[k - 1];
      assert Enabled(s, e) && states[k] == Next(s, e);
      if e.Deliver? && s.channel[0].frame.kind.ApplyFrame? {
        PushNeverFull(states, events, k - 1);
      }
      OverflowOnlyWhenFull(s, e);
    }
  }

  // ------------------------------------------------------------------ end-to-end order

  // Executed points are, one for one, the frames the host sent from the generation's
  // RESET on: nothing repeated, skipped, reordered or mixed with another generation.
  lemma ExecutedIsWhatWasSent(states: seq<Sys>, events: seq<Event>, k: nat)
    requires Run(states, events) && k < |states|
    ensures
      var s := states[k];
      && |s.node.log| <= |s.node.accepted|
      && s.resetIndex + |s.node.accepted| <= |s.sent|
      && (forall i :: 0 <= i < |s.node.accepted| ==>
            CarriedBy(s.node.accepted[i], s.sent[s.resetIndex + i], i))
      && (forall i :: 0 <= i < |s.node.log| ==>
            && s.node.log[i].sequence == s.sent[s.resetIndex + i].sequence
            && Pdo.HoldsTargets(s.node.log[i].image, s.sent[s.resetIndex + i].target))
  {
    RunKeepsInv(states, events, k);
    hide Run, CreditOk, Phases, SnapsOk, Numbered, Pdo.HoldsTargets;
    var s := states[k];
    forall i | 0 <= i < |s.node.log|
      ensures s.node.log[i].sequence == s.sent[s.resetIndex + i].sequence
      ensures Pdo.HoldsTargets(s.node.log[i].image, s.sent[s.resetIndex + i].target)
    {
      assert CarriedBy(s.node.accepted[i], s.sent[s.resetIndex + i], i);
    }
  }

  // -------------------------------------------------------------- sequence agreement

  // An active device takes the next APPLY exactly when no frame before it was lost, and
  // otherwise reports a sequence error: the credit keeps any gap far below 256 frames, so
  // the eight-bit sequence cannot hide it.
  lemma SequenceErrorIffLoss(states: seq<Sys>, events: seq<Event>, k: nat)
    requires Run(states, events) && k < |events|
    requires events[k].Deliver? && states[k].channel[0].frame.kind.ApplyFrame?
    requires Active(states[k].node.dev)
    ensures
      var s := states[k];
      var result := Push(s.node.dev, PointOf(s.channel[0].frame, events[k].tick)).1;
      && (result.PushOk? <==> s.channel[0].index == s.received)
      && (result.PushSequenceError? <==> s.channel[0].index != s.received)
  {
    RunKeepsInv(states, events, k);
    PushNeverFull(states, events, k);
    var s := states[k];
    hide Run, Phases, SnapsOk, Ordered, Next;
    assert Enabled(s, events[k]) by { hide Enabled; assert Run(states, events); }
    assert s.sent[s.channel[0].index] == s.channel[0].frame;
    if s.node.dev.expected == Some(s.channel[0].frame.sequence) {
      NoAliasing(s);
    }
  }

  predicate LosesNothing(events: seq<Event>) {
    forall i :: 0 <= i < |events| ==> !events[i].Lose? && !events[i].Corrupt?
  }

  // The channel holds every frame sent and not yet read.
  predicate Contiguous(channel: seq<Packet>, received: nat, sent: nat) {
    received + |channel| == sent && forall i :: 0 <= i < |channel| ==> channel[i].index == received + i
  }

  lemma StepKeepsContiguous(s: Sys, e: Event)
    requires Enabled(s, e) && !e.Lose? && !e.Corrupt?
    requires Contiguous(s.channel, s.received, |s.sent|)
    ensures Contiguous(Next(s, e).channel, Next(s, e).received, |Next(s, e).sent|)
  {
    hide E.Next, E.Enabled, ReadFrame, Decide, Complete, ApplyCall;
  }

  lemma {:induction false} LosslessIsContiguous(states: seq<Sys>, events: seq<Event>, k: nat)
    requires Run(states, events) && LosesNothing(events) && k < |states|
    ensures Contiguous(states[k].channel, states[k].received, |states[k].sent|)
    decreases k
  {
    if k > 0 {
      LosslessIsContiguous(states, events, k - 1);
      hide Next, Enabled, Contiguous;
      assert Enabled(states[k - 1], events[k - 1]) && states[k] == Next(states[k - 1], events[k - 1]);
      StepKeepsContiguous(states[k - 1], events[k - 1]);
    }
  }

  // On a link that loses nothing the sequence numbers always agree, across holds,
  // aborts, repeated points, refused sends and wrap-around.
  lemma SequenceAgreement(states: seq<Sys>, events: seq<Event>, k: nat)
    requires Run(states, events) && LosesNothing(events) && k < |events|
    requires events[k].Deliver? && states[k].channel[0].frame.kind.ApplyFrame?
    ensures
      var s := states[k];
      var result := Push(s.node.dev, PointOf(s.channel[0].frame, events[k].tick)).1;
      result == if Active(s.node.dev) then PushOk else PushResetRequired
  {
    LosslessIsContiguous(states, events, k);
    if Active(states[k].node.dev) {
      SequenceErrorIffLoss(states, events, k);
    }
    hide Run, Next, Inv;
  }
}
