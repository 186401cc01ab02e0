// What calls, completed sends and arriving statuses make of the host's stream, over runs of
// the joined system, with the answers the callers get.
module CallRules {
  import opened Words
  import opened CspScheduler
  import opened Link
  import opened LinkInvariant
  import opened S = Streaming
  import opened HoldDiscipline
  import opened CycleRules

  predicate Accepting(stream: Stream) {
    stream == StartPending || stream == ResetAwaitingAck || stream == CspScheduler.Streaming
  }

  // A new stream: nothing sent, nothing credited, the latest target first in line.
  predicate Begins(h: Host, h': Host) {
    && h'.stream == StartPending && h'.lastSent == None && !h'.emptyWaiting
    && h'.credit.sent == 0 && h'.credit.accepted == 0 && !h'.credit.tracking
    && h'.queue == (if h.latest.Some? then [h.latest.value] else [])
    && h'.latest == h.latest && h'.enabled == h.enabled && h'.remote == h.remote
  }

  // The stream is left for `terminal`, behind a HOLD if a point was sent.
  predicate Leaves(h: Host, h': Host, terminal: Stream) {
    && h'.queue == [] && !h'.emptyWaiting
    && h' == h.(queue := [], emptyWaiting := false, stream := h'.stream, terminal := h'.terminal)
    && if Moving(h.stream) || h.stream == Finishing then h'.stream == Finishing && h'.terminal == terminal
       else h'.stream == terminal && h'.terminal == h.terminal
  }

  predicate OnlyNotes(h: Host, h': Host, taken: bool, target: Target) {
    h' == h.(latest := if taken then Some(target) else h.latest,
             queue := if taken && Accepting(h.stream) then h.queue + [target] else h.queue)
  }

  // Every outcome of a call.
  predicate Outcome(c: Config, h: Host, call: Call, h': Host) {
    match call
    case CallSubmit(target, allAxes) =>
      OnlyNotes(h, h', allAxes && (Accepting(h.stream) ==> |h.queue| < c.capacity), target)
    case CallEnable(on) => h' == h.(enabled := on)
    case CallStart => if h.enabled && h.stream != Fault then Begins(h, h') else h' == h
    case CallRecover =>
      if h.enabled && (h.stream == ResetRequired || h.stream == Fault) then Begins(h, h') else h' == h
    case CallFinish =>
      if h.stream == StartPending then h' == h.(queue := [], stream := Holding)
      else if Moving(h.stream) then Leaves(h, h', Holding)
      else h' == h
    case CallAbort =>
      if h.stream == Fault then h' == h
      else if h.stream == Finishing then h' == h.(terminal := if h.terminal == Fault then Fault else ResetRequired)
      else Leaves(h, h', ResetRequired)
    case CallFault => Leaves(h, h', Fault)
  }

  // Every call does exactly this, and none touches the sender, the wire or the device.
  lemma CallRule(states: seq<Sys>, events: seq<Event>, k: nat)
    requires Run(states, events) && k < |events| && events[k].HostCall?
    ensures Outcome(states[k].cfg, states[k].host, events[k].call, states[k + 1].host)
    ensures states[k + 1] == states[k].(host := states[k + 1].host)
  {
    RunRemembers(states, events, k);
    assert Enabled(states[k], events[k]) && states[k + 1] == Next(states[k], events[k]);
    hide Run, Enabled;
    CallHolds(states[k].cfg, states[k].host, events[k].call);
    hide Outcome, ApplyCall;
  }

  lemma CallHolds(c: Config, h: Host, call: Call)
    requires Moving(h.stream) || h.stream == Finishing ==> h.lastSent.Some?
    ensures Outcome(c, h, call, ApplyCall(c, h, call))
  {
  }

  // The answers: a target is taken unless an axis is missing or the queue is full; a start
  // needs the gate open and no fault; a recovery says which of its conditions failed; and a
  // finish says whether the stream is now on its way to holding.
  lemma CallAnswers(c: Config, h: Host, target: Target, allAxes: bool)
    requires Moving(h.stream) ==> h.lastSent.Some?
    ensures Submit(c, h, target, allAxes).1 <==> allAxes && (Accepting(h.stream) ==> |h.queue| < c.capacity)
    ensures StartTrajectory(h).1 <==> h.enabled && h.stream != Fault
    ensures RecoverTrajectory(h).1 ==
            if !h.enabled then GateClosed
            else if h.stream == ResetRequired || h.stream == Fault then Recovered else NotRecoverable
    ensures
      var (h', finishing) := FinishTrajectory(h);
      finishing <==> h'.stream == Holding || (h'.stream == Finishing && h'.terminal == Holding)
  {
  }

  // A refused send is a fault at once. A completed HOLD ends the stream where it was to end; a
  // completed RESET starts the wait for its acknowledgment, unless the stream has been left
  // meanwhile; a completed APPLY counts against the credit.
  lemma SendRule(s: Sys, e: Event)
    requires Inv(s) && Enabled(s, e) && (e.LinkFails? || e.HostComplete?)
    ensures
      var h, h' := s.host, Next(s, e).host;
      && Next(s, e).pending.Quiet?
      && if e.LinkFails? then h' == h.(stream := Fault)
         else
           match s.pending.action
           case Hold(_) => h' == h.(stream := if h.stream == Finishing then h.terminal else h.stream)
           case ResetApply(target) =>
             && h'.lastSent == Some(target) && h'.credit == h.credit && h'.queue == h.queue
             && (if h.stream == StartPending
                 then h'.stream == ResetAwaitingAck && h'.pendingReset == s.pending.sequence
                 else h'.stream == h.stream && h'.pendingReset == h.pendingReset)
           case Apply(target) =>
             h' == h.(lastSent := Some(target), credit := h.credit.(sent := h.credit.sent + 1))
           case NoAction => true
  {
    hide DeviceOk, Ordered, SnapsOk, CreditOk, ChannelOk, SequencesCount;
  }

  // A status is always noted. Its accept count is credited while the acknowledged stream's
  // generation lasts, by the 16-bit difference from what was credited before, if that is
  // below half the range.
  lemma StatusRule(states: seq<Sys>, events: seq<Event>, k: nat)
    requires Run(states, events) && k < |events| && events[k].StatusArrives?
    ensures
      var s, s' := states[k], states[k + 1];
      var status, c := s.statuses[0].status, s.host.credit;
      var news := (status.accepted - (s.base.accepted + c.accepted)) % 0x1_0000;
      && s'.host == s.host.(remote := Some(status), credit := s'.host.credit)
      && s'.host.credit.sent == c.sent && s'.host.credit.tracking == c.tracking
      && s'.host.credit.accepted ==
         c.accepted + (if c.tracking && status.generation == s.host.activeGeneration && status.lastAccepted.Some?
                          && news < 0x8000 then news else 0)
      && (c.tracking && status.generation == s.host.activeGeneration && status.lastAccepted.Some? ==>
            s'.host.credit.lastExecuted == status.executed)
  {
    RunKeepsInv(states, events, k);
    var s := states[k];
    assert Enabled(s, events[k]) && states[k + 1] == Next(s, events[k]);
    if s.host.credit.tracking {
      CountIsKept(s);
    }
    StatusHolds(s.host, s.statuses[0].status, s.base.accepted + s.host.credit.accepted);
    hide Run, Inv, UpdateRemote;
  }

  lemma StatusHolds(h: Host, status: Status, counted: nat)
    requires h.credit.tracking ==> h.credit.lastAccepted == counted % 0x1_0000
    ensures
      var c, h' := h.credit, UpdateRemote(h, status);
      var news := (status.accepted - counted) % 0x1_0000;
      && h' == h.(remote := Some(status), credit := h'.credit)
      && h'.credit.sent == c.sent && h'.credit.tracking == c.tracking
      && h'.credit.accepted ==
         c.accepted + (if c.tracking && status.generation == h.activeGeneration && status.lastAccepted.Some?
                          && news < 0x8000 then news else 0)
      && (c.tracking && status.generation == h.activeGeneration && status.lastAccepted.Some? ==>
            h'.credit.lastExecuted == status.executed)
  {
    if h.credit.tracking {
      SubtractionIsMod(status.accepted, counted);
    }
    hide Sub16;
  }

  lemma CountIsKept(s: Sys)
    requires Inv(s) && s.host.credit.tracking
    ensures s.host.credit.lastAccepted == (s.base.accepted + s.host.credit.accepted) % 0x1_0000
  {
    hide DeviceOk, Ordered, Numbered, Phases, SnapsOk, AppliesWithin, Applies;
  }

  lemma SubtractionIsMod(a: U16, b: nat)
    ensures Sub16(a, b % 0x1_0000) == (a - b) % 0x1_0000
  {
  }

  // The first status of a stream is the one that acknowledged it; from it the count starts.
  lemma StreamingBegins(s: Sys, t: Clock)
    requires Enabled(s, HostDecide(t)) && s.host.stream == ResetAwaitingAck && InStream(Next(s, HostDecide(t)))
    ensures
      var h, h' := s.host, Next(s, HostDecide(t)).host;
      && h.remote.Some? && h'.credit.tracking && h'.credit.sent == 0 && h'.credit.accepted == 0
      && h'.activeGeneration == h.remote.value.generation && h'.activeEvents == h.remote.value.events
      && h'.credit.lastAccepted == h.remote.value.accepted
  {
  }
}
