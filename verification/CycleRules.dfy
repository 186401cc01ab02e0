// What a cycle of the host's worker decides, over runs of the joined system: stated on the
// status it goes by, the clock, and the history of calls, cycles and completed sends.
module CycleRules {
  import opened Words
  import RobotTrajectory
  import opened CspScheduler
  import opened Link
  import opened LinkInvariant
  import opened S = Streaming
  import opened HoldDiscipline
  import E = Execution

  // ------------------------------------------------------------------- the history

  predicate InStream(s: Sys) { s.host.stream == CspScheduler.Streaming }

  // The target of the last RESET or APPLY whose send was completed since the latest start
  // or recovery.
  function LastSent(states: seq<Sys>, events: seq<Event>, k: nat): Option<Target>
    requires |states| == |events| + 1 && k < |states|
    decreases k
  {
    if k == 0 then None else NextLast(states[k - 1], events[k - 1], LastSent(states, events, k - 1))
  }

  function NextLast(s: Sys, e: Event, last: Option<Target>): Option<Target> {
    if Restarts(s, e) then None
    else if e.HostComplete? && !s.pending.Quiet? && s.pending.action.ResetApply? then Some(s.pending.action.target)
    else if e.HostComplete? && !s.pending.Quiet? && s.pending.action.Apply? then Some(s.pending.action.target)
    else last
  }

  // The latest cycle of the present streaming found the queue empty.
  predicate FoundEmpty(states: seq<Sys>, events: seq<Event>, k: nat)
    requires |states| == |events| + 1 && k < |states|
    decreases k
  {
    k > 0 && NextFound(states[k - 1], events[k - 1], states[k], FoundEmpty(states, events, k - 1))
  }

  predicate NextFound(s: Sys, e: Event, s': Sys, found: bool) {
    InStream(s) && InStream(s') && if e.HostDecide? then s.host.queue == [] else found
  }

  // The status that acknowledged the RESET of the latest streaming.
  function Baseline(states: seq<Sys>, events: seq<Event>, k: nat): Option<Status>
    requires |states| == |events| + 1 && k < |states|
    decreases k
  {
    if k == 0 then None else NextBase(states[k - 1], states[k], Baseline(states, events, k - 1))
  }

  function NextBase(s: Sys, s': Sys, base: Option<Status>): Option<Status> {
    if !InStream(s) && InStream(s') then s.host.remote else base
  }

  // The generation the host knew when it last decided a RESET.
  function GenerationKnown(states: seq<Sys>, events: seq<Event>, k: nat): U16
    requires |states| == |events| + 1 && k < |states|
    decreases k
  {
    if k == 0 then 0
    else NextGeneration(states[k - 1], events[k - 1], states[k], GenerationKnown(states, events, k - 1))
  }

  function NextGeneration(s: Sys, e: Event, s': Sys, generation: U16): U16 {
    if e.HostDecide? && s'.pending.Decided? && s'.pending.action.ResetApply? && s.host.remote.Some?
    then s.host.remote.value.generation else generation
  }

  // The host's own notes agree with that history.
  predicate Remembers(s: Sys, last: Option<Target>, found: bool, base: Option<Status>, generation: U16) {
    && s.host.lastSent == last
    && (Moving(s.host.stream) || s.host.stream == Finishing ==> last.Some?)
    && (s.host.stream == StartPending || s.host.stream == ResetAwaitingAck ==> !s.host.emptyWaiting)
    && (InStream(s) ==> (s.host.emptyWaiting <==> found))
    && (InStream(s) ==> base.Some? && s.host.activeGeneration == base.value.generation
                        && s.host.activeEvents == base.value.events)
    && s.host.generationBefore == generation
  }

  lemma DecideRemembers(s: Sys, t: Clock, last: Option<Target>, found: bool, base: Option<Status>, generation: U16)
    requires Inv(s) && Remembers(s, last, found, base, generation) && Enabled(s, HostDecide(t))
    ensures
      var s' := Next(s, HostDecide(t));
      Remembers(s', last, InStream(s) && InStream(s') && s.host.queue == [], NextBase(s, s', base),
                NextGeneration(s, HostDecide(t), s', generation))
  {
    hide RemoteFault, MayApply, SafetyFault, AllowsReset, Numbered, DeviceOk, Ordered, SnapsOk, CreditOk;
  }

  lemma CallRemembers(s: Sys, call: Call, last: Option<Target>, found: bool, base: Option<Status>, generation: U16)
    requires Remembers(s, last, found, base, generation)
    ensures
      var e := HostCall(call);
      var s' := Next(s, e);
      Remembers(s', NextLast(s, e, last), InStream(s) && InStream(s') && found, NextBase(s, s', base), generation)
  {
  }

  lemma OtherRemembers(s: Sys, e: Event, last: Option<Target>, found: bool, base: Option<Status>, generation: U16)
    requires Inv(s) && Remembers(s, last, found, base, generation) && Enabled(s, e) && !e.HostDecide? && !e.HostCall?
    ensures
      var s' := Next(s, e);
      Remembers(s', NextLast(s, e, last), InStream(s) && InStream(s') && found, NextBase(s, s', base), generation)
  {
    hide DeviceOk, Ordered, SnapsOk, CreditOk, ChannelOk, SequencesCount, E.Next, E.Enabled, ReadFrame;
  }

  lemma StepRemembers(s: Sys, e: Event, last: Option<Target>, found: bool, base: Option<Status>, generation: U16)
    requires Inv(s) && Remembers(s, last, found, base, generation) && Enabled(s, e)
    ensures
      var s' := Next(s, e);
      Remembers(s', NextLast(s, e, last), NextFound(s, e, s', found), NextBase(s, s', base),
                NextGeneration(s, e, s', generation))
  {
    if e.HostDecide? {
      DecideRemembers(s, e.clock, last, found, base, generation);
    } else if e.HostCall? {
      CallRemembers(s, e.call, last, found, base, generation);
    } else {
      OtherRemembers(s, e, last, found, base, generation);
    }
    hide Remembers, Inv, Next, Enabled;
  }

  lemma {:induction false} RunRemembers(states: seq<Sys>, events: seq<Event>, k: nat)
    requires Run(states, events) && k < |states|
    ensures Remembers(states[k], LastSent(states, events, k), FoundEmpty(states, events, k),
                      Baseline(states, events, k), GenerationKnown(states, events, k))
    decreases k
  {
    if k > 0 {
      hide Next, Enabled, Inv, Remembers, Initial, NextLast, NextFound, NextBase, NextGeneration;
      RunRemembers(states, events, k - 1);
      RunKeepsInv(states, events, k - 1);
      assert Enabled(states[k - 1], events[k - 1]) && states[k] == Next(states[k - 1], events[k - 1]);
      StepRemembers(states[k - 1], events[k - 1], LastSent(states, events, k - 1), FoundEmpty(states, events, k - 1),
                    Baseline(states, events, k - 1), GenerationKnown(states, events, k - 1));
    }
  }

  // ------------------------------------------------------------- a cycle of streaming

  predicate FreshLatch(h: Host, t: Clock) {
    h.remote.Some? && t.remoteFresh && (h.remote.value.safetyHold || h.remote.value.quickStop)
  }

  function Unconfirmed(h: Host): nat {
    if h.credit.sent > h.credit.accepted then h.credit.sent - h.credit.accepted else 0
  }

  // The device is in the session that was acknowledged, as it should be, and makes progress.
  predicate Healthy(h: Host, base: Status, t: Clock) {
    && h.remote.Some? && t.remoteFresh
    && var r := h.remote.value;
       && (r.state == RobotTrajectory.PREFILL || r.state == RobotTrajectory.RUNNING)
       && !r.resetRequired && !r.safetyHold && !r.quickStop
       && r.generation == base.generation && r.events == base.events
       && r.capacity == 15 && r.prefill == 8
       && !(Unconfirmed(h) > 0 && t.progressExpired)
  }

  // Fewer points there and on their way than the watermark, and than thirteen.
  predicate Room(c: Config, h: Host) {
    h.remote.Some? && h.remote.value.depth + Unconfirmed(h) < 13 && h.remote.value.depth + Unconfirmed(h) < c.high
  }

  // The stream ends behind a HOLD of the last target.
  predicate Ends(s': Sys, last: Option<Target>, terminal: Stream) {
    && last.Some? && s'.pending == Decided(Hold(last.value))
    && s'.host.stream == Finishing && s'.host.terminal == terminal && s'.host.queue == []
  }

  predicate Stays(s: Sys, s': Sys) { s'.host.stream == s.host.stream && s'.host.queue == s.host.queue }

  // Every outcome of a streaming cycle.
  predicate StreamingOutcome(s: Sys, t: Clock, s': Sys, last: Option<Target>, found: bool, base: Status) {
    var h := s.host;
    if !h.enabled || !Healthy(h, base, t) then Ends(s', last, if FreshLatch(h, t) then Fault else ResetRequired)
    else if h.queue != [] && t.headFresh then
      if Room(s.cfg, h)
      then InStream(s') && s'.pending == Decided(Apply(h.queue[0])) && s'.host.queue == h.queue[1..]
      else Stays(s, s') && s'.pending.Quiet?
    else if h.queue == [] && (!found || t.withinGrace) then
      && Stays(s, s')
      && s'.pending == if h.latest.Some? && t.latestFresh && Room(s.cfg, h) && last.Some?
                       then Decided(Apply(last.value)) else Quiet
    else Ends(s', last, ResetRequired)
  }

  lemma StreamingDecides(s: Sys, t: Clock, last: Option<Target>, found: bool, base: Option<Status>, generation: U16)
    requires Enabled(s, HostDecide(t)) && InStream(s) && Remembers(s, last, found, base, generation)
    ensures StreamingOutcome(s, t, Next(s, HostDecide(t)), last, found, base.value)
  {
  }

  // Over runs: what a streaming cycle does follows from the gate, the status against the one
  // that acknowledged the RESET, the clock, and what earlier cycles and sends left behind.
  lemma StreamingCycle(states: seq<Sys>, events: seq<Event>, k: nat)
    requires Run(states, events) && k < |events| && events[k].HostDecide? && InStream(states[k])
    ensures Baseline(states, events, k).Some?
    ensures StreamingOutcome(states[k], events[k].clock, states[k + 1], LastSent(states, events, k),
                             FoundEmpty(states, events, k), Baseline(states, events, k).value)
  {
    RunRemembers(states, events, k);
    assert Enabled(states[k], events[k]) && states[k + 1] == Next(states[k], events[k]);
    hide Next, Enabled, Run;
    StreamingDecides(states[k], events[k].clock, LastSent(states, events, k), FoundEmpty(states, events, k),
                     Baseline(states, events, k), GenerationKnown(states, events, k));
    hide StreamingOutcome;
  }

  // A cycle that finds nothing wrong leaves streaming exactly for a stale head, or for an
  // empty queue that an earlier cycle had found empty too and whose grace has passed. It
  // leaves behind a HOLD of the target sent last.
  lemma StreamingIsLeft(states: seq<Sys>, events: seq<Event>, k: nat)
    requires Run(states, events) && k < |events| && events[k].HostDecide? && InStream(states[k])
    requires Baseline(states, events, k).Some? && states[k].host.enabled
    requires Healthy(states[k].host, Baseline(states, events, k).value, events[k].clock)
    ensures
      var s, s', t := states[k], states[k + 1], events[k].clock;
      && (!InStream(s') <==> || (s.host.queue != [] && !t.headFresh)
                             || (s.host.queue == [] && FoundEmpty(states, events, k) && !t.withinGrace))
      && (!InStream(s') ==> Ends(s', LastSent(states, events, k), ResetRequired))
  {
    StreamingCycle(states, events, k);
    hide Run, Healthy, Room;
  }

  // With nothing queued an APPLY repeats the target sent last, within the grace, and only
  // while the latest submitted target is fresh and there is room.
  lemma RepeatsWithinGrace(states: seq<Sys>, events: seq<Event>, k: nat)
    requires Run(states, events) && k < |events| && events[k].HostDecide? && InStream(states[k])
    requires states[k].host.queue == []
    requires states[k + 1].pending.Decided? && states[k + 1].pending.action.Apply?
    ensures LastSent(states, events, k) == Some(states[k + 1].pending.action.target)
    ensures !FoundEmpty(states, events, k) || events[k].clock.withinGrace
    ensures states[k].host.latest.Some? && events[k].clock.latestFresh && Room(states[k].cfg, states[k].host)
  {
    StreamingCycle(states, events, k);
    hide Run, Healthy, Room;
  }

  // ------------------------------------------------------ the cycles around streaming

  // The status shows a new generation that began with the frame sent last, the RESET.
  predicate Acknowledges(s: Sys, t: Clock, generation: U16) {
    && s.host.remote.Some? && t.remoteFresh && s.sent != []
    && var r := s.host.remote.value;
       && (r.state == RobotTrajectory.PREFILL || r.state == RobotTrajectory.RUNNING)
       && !r.resetRequired && !r.safetyHold && !r.quickStop
       && r.generation != generation
       && r.lastAccepted == Some(s.sent[|s.sent| - 1].sequence)
       && r.expected == Some((s.sent[|s.sent| - 1].sequence + 1) % 0x100)
  }

  predicate AckOutcome(s: Sys, t: Clock, s': Sys, last: Option<Target>, generation: U16) {
    if !s.host.enabled || FreshLatch(s.host, t)
    then Ends(s', last, if FreshLatch(s.host, t) then Fault else ResetRequired)
    else if Acknowledges(s, t, generation)
    then InStream(s') && s'.pending.Quiet? && s'.host.queue == s.host.queue
    else if t.ackExpired then Ends(s', last, ResetRequired)
    else Stays(s, s') && s'.pending.Quiet?
  }

  lemma AckDecides(s: Sys, t: Clock, last: Option<Target>, found: bool, base: Option<Status>, generation: U16)
    requires Inv(s) && Enabled(s, HostDecide(t)) && s.host.stream == ResetAwaitingAck
    requires Remembers(s, last, found, base, generation)
    ensures AckOutcome(s, t, Next(s, HostDecide(t)), last, generation)
  {
    hide DeviceOk, Ordered, SnapsOk, CreditOk, ChannelOk, SequencesCount;
  }

  // Waiting for the acknowledgment ends with it, with a closed gate or a latched safety
  // request, or with the timeout, in this order, and nothing else.
  lemma AckCycle(states: seq<Sys>, events: seq<Event>, k: nat)
    requires Run(states, events) && k < |events| && events[k].HostDecide?
    requires states[k].host.stream == ResetAwaitingAck
    ensures AckOutcome(states[k], events[k].clock, states[k + 1], LastSent(states, events, k),
                       GenerationKnown(states, events, k))
  {
    RunRemembers(states, events, k);
    RunKeepsInv(states, events, k);
    assert Enabled(states[k], events[k]) && states[k + 1] == Next(states[k], events[k]);
    hide Next, Enabled, Run, Inv;
    AckDecides(states[k], events[k].clock, LastSent(states, events, k), FoundEmpty(states, events, k),
               Baseline(states, events, k), GenerationKnown(states, events, k));
    hide AckOutcome;
  }

  // The device can be reset: idle or on hold, of the expected make, no safety request.
  predicate Resettable(h: Host, t: Clock) {
    && h.remote.Some? && t.remoteFresh
    && var r := h.remote.value;
       && (r.state == RobotTrajectory.IDLE || r.state == RobotTrajectory.HOLD)
       && r.capacity == 15 && r.prefill == 8 && !r.safetyHold && !r.quickStop
  }

  predicate StartOutcome(s: Sys, t: Clock, s': Sys) {
    var h := s.host;
    if h.enabled && |h.queue| >= 12 && t.headFresh && Resettable(h, t)
    then
      && s'.host.stream == StartPending && s'.pending == Decided(ResetApply(h.queue[0]))
      && s'.host.queue == h.queue[1..]
    else if h.enabled && h.queue != [] && !t.headFresh
    then s'.host.stream == ResetRequired && s'.pending.Quiet? && s'.host.queue == []
    else Stays(s, s') && s'.pending.Quiet?
  }

  lemma StartCycle(s: Sys, t: Clock)
    requires Enabled(s, HostDecide(t)) && s.host.stream == StartPending
    ensures StartOutcome(s, t, Next(s, HostDecide(t)))
  {
  }

  // A stream that finishes sends its HOLD again until the link takes it; at rest nothing is
  // ever decided.
  lemma FinishCycle(states: seq<Sys>, events: seq<Event>, k: nat)
    requires Run(states, events) && k < |events| && events[k].HostDecide?
    ensures states[k].host.stream == Finishing ==>
              && LastSent(states, events, k).Some?
              && states[k + 1].pending == Decided(Hold(LastSent(states, events, k).value))
              && states[k + 1].host == states[k].host
    ensures AtRest(states[k].host.stream) || states[k].host.stream == Fault || states[k].host.stream == Idle ==>
              states[k + 1].pending.Quiet? && states[k + 1].host == states[k].host
  {
    RunRemembers(states, events, k);
    assert Enabled(states[k], events[k]) && states[k + 1] == Next(states[k], events[k]);
    hide Run, DecideStart, DecideAck, DecideStreaming;
  }
}
