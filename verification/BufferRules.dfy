// When a point leaves the trajectory buffer and when the buffer gives up: what Take does over
// runs, in terms of ticks, validity and the takes that found nothing.
module BufferRules {
  import opened Words
  import opened RobotTrajectory
  import opened Execution
  import Pdo

  // The head has lain for its validity or longer; ticks wrap.
  predicate Expired(p: Point, tick: U32) {
    p.validityMs <= if tick >= p.receivedTick then tick - p.receivedTick else tick - p.receivedTick + 0x1_0000_0000
  }

  // Points may leave: the buffer runs, or is filled for the first time.
  predicate MayRun(d: Device) { d.state == RUNNING || (d.state == PREFILL && |d.queue| >= 8) }

  // Every active buffer leaves each take by exactly one of these doors.
  predicate Doors(n: Node, tick: U32, n': Node) {
    var d, d' := n.dev, n'.dev;
    if d.state == PREFILL && |d.queue| < 8 then n'.pc.AtExchange? && d' == d
    else if d.queue == [] then !n'.pc.Taken?
    else if Expired(d.queue[0], tick) then
      && n'.pc.AtExchange? && d'.state == HOLD && d'.resetRequired && d'.queue == [] && d'.staged == None
      && d'.counts == d.counts.(expired := Inc32(d.counts.expired))
      && d'.holdReason == if d.holdReason == 0 then 0x07 else d.holdReason
    else
      && n'.pc.Taken? && n'.pc.point == d.queue[0] && n'.pc.generation == d.generation
      && d'.state == RUNNING && d'.queue == d.queue[1..] && d'.counts == d.counts
  }

  lemma TakeUsesOneDoor(n: Node, e: Event)
    requires Inv(n) && Enabled(n, e) && e.TestTake? && !n.dev.resetRequired
    ensures Doors(n, e.tick, Next(n, e))
  {
    hide LogMatches, StagedMatches, TakenMatches, Conserved;
  }

  // A point is handed to the drives only fresh; a stale head never is, and stops the stream.
  lemma StaleIsNeverTaken(states: seq<Node>, events: seq<Event>, k: nat)
    requires Run(states, events) && k < |events| && events[k].TestTake?
    ensures
      var n, n', tick := states[k], states[k + 1], events[k].tick;
      && (n'.pc.Taken? <==> MayRun(n.dev) && n.dev.queue != [] && !Expired(n.dev.queue[0], tick))
      && (n'.pc.Taken? ==> n'.pc.point == n.dev.queue[0] && !Expired(n'.pc.point, tick))
      && (MayRun(n.dev) && n.dev.queue != [] && Expired(n.dev.queue[0], tick) ==>
            && n'.dev.state == HOLD && n'.dev.queue == [] && n'.dev.staged == None
            && n'.dev.counts.expired == Inc32(n.dev.counts.expired)
            && n'.dev.holdReason == if n.dev.holdReason == 0 then 0x07 else n.dev.holdReason)
  {
    RunKeepsInv(states, events, k);
    assert Enabled(states[k], events[k]) && states[k + 1] == Next(states[k], events[k]);
    if !states[k].dev.resetRequired {
      TakeUsesOneDoor(states[k], events[k]);
      hide Next;
    }
    hide LogMatches, StagedMatches, TakenMatches, Conserved, Run;
  }

  // What a take answers: a hold while a RESET is required, a wait while it prefills, the head,
  // or the grace.
  lemma TakeAnswers(d: Device, tick: U32)
    requires WellFormed(d)
    ensures
      var answer := Take(d, tick).1;
      if d.resetRequired then answer == TakeHold
      else if !MayRun(d) then answer == TakeWait
      else if d.queue == [] then answer == if d.graceCycles < 3 then TakeGrace else TakeHold
      else answer == if Expired(d.queue[0], tick) then TakeHold else TakePoint(d.queue[0], d.generation)
  {
  }

  // ------------------------------------------------------------- the empty queue

  predicate Starving(n: Node) { n.dev.state == RUNNING && n.dev.queue == [] }

  // Takes that have found the running queue empty since it last held a point.
  function EmptyTakes(states: seq<Node>, events: seq<Event>, k: nat): nat
    requires |states| == |events| + 1 && k < |states|
    decreases k
  {
    if k == 0 || !Starving(states[k]) then 0
    else EmptyTakes(states, events, k - 1) + if events[k - 1].TestTake? && Starving(states[k - 1]) then 1 else 0
  }

  lemma StepCountsEmptyTakes(n: Node, e: Event, count: nat)
    requires Inv(n) && Enabled(n, e) && (if Starving(n) then n.dev.graceCycles == count else count == 0)
    requires n.dev.state == RUNNING && n.dev.queue != [] ==> n.dev.graceCycles == 0
    ensures
      var n' := Next(n, e);
      && (Starving(n') ==> n'.dev.graceCycles == count + if e.TestTake? && Starving(n) then 1 else 0)
      && (n'.dev.state == RUNNING && n'.dev.queue != [] ==> n'.dev.graceCycles == 0)
  {
    hide LogMatches, StagedMatches, TakenMatches, Conserved;
  }

  lemma {:induction false} GraceIsCounted(states: seq<Node>, events: seq<Event>, k: nat)
    requires Run(states, events) && k < |states|
    ensures if Starving(states[k]) then states[k].dev.graceCycles == EmptyTakes(states, events, k)
            else EmptyTakes(states, events, k) == 0
    ensures states[k].dev.state == RUNNING && states[k].dev.queue != [] ==> states[k].dev.graceCycles == 0
    decreases k
  {
    if k > 0 {
      GraceIsCounted(states, events, k - 1);
      RunKeepsInv(states, events, k - 1);
      hide Inv, Next, Enabled, Starving;
      assert Enabled(states[k - 1], events[k - 1]) && states[k] == Next(states[k - 1], events[k - 1]);
      StepCountsEmptyTakes(states[k - 1], events[k - 1], EmptyTakes(states, events, k - 1));
    }
  }

  // Three takes in a row may find the running queue empty and leave everything as it is; the
  // fourth is the underrun.
  lemma FourthEmptyTakeUnderruns(states: seq<Node>, events: seq<Event>, k: nat)
    requires Run(states, events) && k < |events| && events[k].TestTake? && Starving(states[k])
    ensures
      var n, n' := states[k], states[k + 1];
      if EmptyTakes(states, events, k) < 3
      then Starving(n') && n'.image == n.image && n'.dev.counts == n.dev.counts && n'.dev.holdReason == n.dev.holdReason
      else && n'.dev.state == HOLD && n'.dev.staged == None
           && n'.dev.counts == n.dev.counts.(underrun := Inc32(n.dev.counts.underrun))
           && n'.dev.holdReason == if n.dev.holdReason == 0 then 0x04 else n.dev.holdReason
  {
    GraceIsCounted(states, events, k);
    RunKeepsInv(states, events, k);
    assert Enabled(states[k], events[k]) && states[k + 1] == Next(states[k], events[k]);
    hide Run, EmptyTakes, LogMatches, StagedMatches, TakenMatches, Conserved;
  }

  // A point that arrives within the grace ends it and is counted as a recovery; at any other
  // time an accepted point counts none.
  lemma RecoveryIsCounted(states: seq<Node>, events: seq<Event>, k: nat)
    requires Run(states, events) && k < |events| && events[k].ApplyFrame?
    requires Push(states[k].dev, events[k].point).1.PushOk?
    ensures
      var d, d' := states[k].dev, states[k + 1].dev;
      && EmptyTakes(states, events, k + 1) == 0
      && d'.counts.graceRecovery ==
         if EmptyTakes(states, events, k) > 0 then Inc32(d.counts.graceRecovery) else d.counts.graceRecovery
  {
    GraceIsCounted(states, events, k);
    GraceIsCounted(states, events, k + 1);
    assert Enabled(states[k], events[k]) && states[k + 1] == Next(states[k], events[k]);
    hide Run;
  }

  // ------------------------------------------------------- frames, holds, exchanges

  // The first reason stays; otherwise this one is latched.
  function Reason(d: Device, reason: U8): U8 { if d.holdReason == 0 then reason else d.holdReason }

  function Plus(x: U32): U32 { (x + 1) % 0x1_0000_0000 }

  // Everything queued or staged is dropped, for this reason; the counts are `counts`.
  predicate Drops(d: Device, d': Device, reason: U8, counts: Counts) {
    && d'.state == HOLD && d'.resetRequired && d'.expected == None && d'.queue == [] && d'.graceCycles == 0
    && d'.staged == None && d'.holdReason == Reason(d, reason)
    && d'.lastAccepted == d.lastAccepted && d'.generation == d.generation && d'.seen == d.seen && d'.counts == counts
  }

  predicate Refuses(d: Device, p: Point, d': Device) {
    if d.resetRequired then d' == d
    else if d.expected != Some(p.sequence) then Drops(d, d', 0x06, d.counts)
    else Drops(d, d', 0x05, d.counts.(overflow := Plus(d.counts.overflow)))
  }

  predicate Accepts(d: Device, p: Point, d': Device) {
    && d'.queue == d.queue + [p] && d'.expected == Some((p.sequence + 1) % 0x100) && d'.lastAccepted == Some(p.sequence)
    && d'.counts.accepted == Plus(d.counts.accepted) && d'.state == d.state && !d'.resetRequired
    && d'.staged == d.staged && d'.holdReason == d.holdReason && d'.generation == d.generation && d'.seen == d.seen
    && d'.counts == d.counts.(accepted := d'.counts.accepted, graceRecovery := d'.counts.graceRecovery)
  }

  predicate Resets(d: Device, p: Point, d': Device) {
    && d'.state == PREFILL && !d'.resetRequired && d'.queue == [p] && d'.expected == Some((p.sequence + 1) % 0x100)
    && d'.lastAccepted == Some(p.sequence) && d'.staged == None && d'.holdReason == 0 && d'.graceCycles == 0
    && d'.generation == Plus(d.generation) && d'.counts == d.counts.(accepted := Plus(d.counts.accepted))
    && d'.seen == Observed(d.seen.lastReceived, None, 0, None, 0)
  }

  predicate Confirms(d: Device, cycle: U32, d': Device) {
    d' == if d.staged.None? then d
          else d.(staged := None,
                  seen := d.seen.(lastExecuted := Some(d.staged.value.sequence), lastExecutedCycle := cycle),
                  counts := d.counts.(executed := Plus(d.counts.executed)))
  }

  predicate BufferOutcome(n: Node, e: Event, n': Node) {
    var d, d' := n.dev, n'.dev;
    match e
    case ApplyFrame(p) =>
      if !d.resetRequired && d.expected == Some(p.sequence) && |d.queue| < 15 then Accepts(d, p, d')
      else Refuses(d, p, d')
    case ResetFrame(p) => Resets(d, p, d')
    case HoldDemand(reason) => Drops(d, d', reason, d.counts)
    case Received(sequence) => d' == d.(seen := d.seen.(lastReceived := Some(sequence)))
    case Rejected(sequence, reason) =>
      d' == d.(seen := d.seen.(lastRejected := sequence, rejectReason := reason),
               counts := d.counts.(rejected := Plus(d.counts.rejected)))
    case GoodExchange(cycle) => Confirms(d, cycle, d')
    case TestStage =>
      if Interrupted(n) then d'.state == HOLD && d'.queue == [] && d'.staged == None && d'.holdReason == Reason(d, 0x0D)
      else d' == d.(staged := Some(Staged(n.pc.point.sequence, d.generation)))
    case LostExchange(_) => if n.test then Drops(d, d', 0x0A, d.counts) else d' == d
    case TestFault(reason, _, _) => Drops(d, d', reason, d.counts)
    case SessionLost(reason) => if reason.Some? then Drops(d, d', reason.value, d.counts) else d' == d
    case TestTake(_, _) => true
    case _ => d' == d
  }

  lemma BufferStep(n: Node, e: Event)
    requires Inv(n) && Enabled(n, e)
    ensures BufferOutcome(n, e, Next(n, e))
  {
    if e.TestStage? {
      if n.pc.generation == n.dev.generation {
        GenerationsDiffer(n.pc.epoch, n.epoch);
      }
    }
    hide LogMatches, Take;
  }

  // Over every run: what each frame, hold demand, exchange and staging makes of the buffer,
  // with its reason codes and counters. `StaleIsNeverTaken` and `FourthEmptyTakeUnderruns` say
  // the same of the takes.
  lemma BufferRule(states: seq<Node>, events: seq<Event>, k: nat)
    requires Run(states, events) && k < |events|
    ensures BufferOutcome(states[k], events[k], states[k + 1])
  {
    RunKeepsInv(states, events, k);
    assert Enabled(states[k], events[k]) && states[k + 1] == Next(states[k], events[k]);
    hide Run, Next, Inv, BufferOutcome;
    BufferStep(states[k], events[k]);
  }

  // ------------------------------------------------------------- the task around it

  predicate TaskAt(n: Node, n': Node, pc: Pc, image: Pdo.Image, test: bool) {
    n'.pc == pc && n'.image == image && n'.test == test
  }

  // Where the task is, what it will send, and what history records.
  predicate TaskOutcome(n: Node, e: Event, n': Node) {
    match e
    case GoodExchange(_) => TaskAt(n, n', Dispatching, n.image, n.test)
    case ToleratedExchange => n' == n
    case LostExchange(image) => TaskAt(n, n', AtExchange, image, false)
    case OtherHandler(image, test) => TaskAt(n, n', AtExchange, image, test)
    case TestFault(_, image, test) => TaskAt(n, n', AtExchange, image, test)
    case TestTake(tick, inputs) =>
      && n'.test == n.test
      && if n'.pc.Taken? then n'.image == n.image && n'.taken == n.taken + 1
         else
           && n'.pc.AtExchange? && n'.taken == n.taken
           && if Starving(n) && !n'.dev.resetRequired then n'.image == n.image
              else forall i :: 0 <= i < 6 ==> n'.image[i] == n.image[i].(target := inputs[i].position)
    case TestStage =>
      n.pc.Taken? && TaskAt(n, n', if Interrupted(n) then Over else ReadyToCommit(n.pc.point), n.image, n.test)
    case TestCommit =>
      n'.pc.AtExchange? && n'.test == n.test && n.pc.ReadyToCommit? && Pdo.HoldsTargets(n'.image, n.pc.point.target)
    case SessionLost(_) => TaskAt(n, n', Over, n.image, n.test)
    case SessionBegins(image) => TaskAt(n, n', AtExchange, image, false)
    case ResetFrame(p) =>
      && TaskAt(n, n', n.pc, n.image, n.test)
      && n'.epoch == n.epoch + 1 && n'.accepted == [p] && n'.taken == 0 && n'.log == []
    case ApplyFrame(p) =>
      && TaskAt(n, n', n.pc, n.image, n.test)
      && n'.accepted == if !n.dev.resetRequired && n.dev.expected == Some(p.sequence) && |n.dev.queue| < 15
                        then n.accepted + [p] else n.accepted
    case _ => TaskAt(n, n', n.pc, n.image, n.test)
  }

  lemma TaskStep(n: Node, e: Event)
    requires Inv(n) && Enabled(n, e)
    ensures TaskOutcome(n, e, Next(n, e))
  {
    match e
    case TestTake(_, _) => hide LogMatches, StagedMatches, TakenMatches, Conserved;
    case TestStage => StageFailsWhenInterrupted(n); hide Inv;
    case TestCommit => CommitHolds(n); hide Pdo.HoldsTargets, Pdo.PlacePoint;
    case _ => hide LogMatches, StagedMatches, TakenMatches, Conserved, Take;
  }

  // Over every run: where each step leaves the task, what it will send next and what counts as
  // accepted. Only a commit, a relatch or a handler changes the image.
  lemma TaskRule(states: seq<Node>, events: seq<Event>, k: nat)
    requires Run(states, events) && k < |events|
    ensures TaskOutcome(states[k], events[k], states[k + 1])
  {
    RunKeepsInv(states, events, k);
    assert Enabled(states[k], events[k]) && states[k + 1] == Next(states[k], events[k]);
    hide Run, Next, Inv, TaskOutcome;
    TaskStep(states[k], events[k]);
  }
}
