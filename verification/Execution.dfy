// The trajectory buffer and the EtherCAT task that empties it, with CAN frames and
// hold demands arriving between any two of the task's steps.
//
// One cycle of the task is: exchange the process image, confirm a staged point,
// dispatch on the drive state, and in the TEST state take a point, stage it and
// commit the next image. Each of these is one step here, because the buffer's
// functions are the only critical sections. A lost exchange ends the session, and a new
// one may begin on the same buffer.
//
// `epoch`, `accepted`, `taken` and `log` are history: no step reads them.
module Execution {
  import opened Words
  import opened RobotTrajectory
  import opened Pdo

  datatype Pc =
    | AtExchange
    | Dispatching
    | Taken(point: Point, generation: U32, epoch: nat)
    | ReadyToCommit(point: Point)
    // the exchange was reported lost: no more cycles in this session
    | Over

  // What one confirmation reported, and the image its exchange sent.
  datatype Execution = Execution(sequence: U8, image: Image)

  datatype Node = Node(
    dev: Device,
    pc: Pc,
    // the drive state is TEST
    test: bool,
    image: Image,
    // resets so far; the device's generation is its low 32 bits
    epoch: nat,
    // points accepted since the last reset, the reset's own point first
    accepted: seq<Point>,
    // points taken out of the queue since the last reset
    taken: nat,
    // confirmations since the last reset
    log: seq<Execution>)

  datatype Event =
    // from the CAN task and the safety latch
    | ResetFrame(point: Point)
    | ApplyFrame(point: Point)
    | HoldDemand(reason: U8)
    | Received(sequence: U8)
    | Rejected(rejected: Option<U8>, rejectReason: U8)
    // from the EtherCAT task
    | GoodExchange(cycle: U32)
    | ToleratedExchange
    | LostExchange(lostImage: Image)
    | OtherHandler(otherImage: Image, entersTest: bool)
    | TestFault(faultReason: U8, faultImage: Image, staysInTest: bool)
    | TestTake(tick: U32, inputs: Inputs)
    | TestStage
    | TestCommit
    | SessionLost(lostReason: Option<U8>)
    | SessionBegins(firstImage: Image)

  function Start(image: Image): Node {
    Node(Init(), AtExchange, false, image, 0, [], 0, [])
  }

  // A taken point is at most 2^32 resets old when it is staged.
  const GENERATIONS := 0x1_0000_0000

  predicate Enabled(n: Node, e: Event) {
    match e
    case ResetFrame(_) => n.pc.Taken? ==> n.epoch + 1 < n.pc.epoch + GENERATIONS
    case GoodExchange(_) => n.pc.AtExchange?
    case ToleratedExchange => n.pc.AtExchange?
    case LostExchange(_) => n.pc.AtExchange?
    case OtherHandler(_, _) => n.pc.Dispatching? && !n.test
    case TestFault(_, _, _) => n.pc.Dispatching? && n.test
    case TestTake(_, _) => n.pc.Dispatching? && n.test
    case TestStage => n.pc.Taken?
    case TestCommit => n.pc.ReadyToCommit?
    // Whatever ends a session in the TEST state demands a hold first.
    case SessionLost(reason) => (n.pc.AtExchange? || n.pc.Dispatching?) && (n.test ==> reason.Some?)
    case SessionBegins(_) => n.pc.Over?
    case _ => true
  }

  function Next(n: Node, e: Event): Node
    requires Enabled(n, e)
  {
    match e
    case ResetFrame(p) =>
      n.(dev := ResetAndPush(n.dev, p), epoch := n.epoch + 1, accepted := [p], taken := 0, log := [])
    case ApplyFrame(p) =>
      var (d, result) := Push(n.dev, p);
      n.(dev := d, accepted := if result == PushOk then n.accepted + [p] else n.accepted)
    case HoldDemand(reason) => n.(dev := RequireReset(n.dev, reason))
    case Received(s) => n.(dev := RecordReceived(n.dev, s))
    case Rejected(s, reason) => n.(dev := RecordRejected(n.dev, s, reason))
    case GoodExchange(cycle) =>
      var (d, confirmed) := Confirm(n.dev, cycle);
      n.(dev := d, pc := Dispatching,
         log := if confirmed then n.log + [Execution(n.dev.staged.value.sequence, n.image)] else n.log)
    // One or two bad working counters in a row: the image is sent again unchanged.
    case ToleratedExchange => n
    // From the third one on: TEST is left, and the rollback rewrites the image.
    case LostExchange(image') =>
      n.(dev := if n.test then RequireReset(n.dev, HOLD_REASON_ETHERCAT_NOT_OP) else n.dev,
         image := image', test := false)
    case OtherHandler(image', test') => n.(image := image', test := test', pc := AtExchange)
    case TestFault(reason, image', test') =>
      n.(dev := RequireReset(n.dev, reason), image := image', test := test', pc := AtExchange)
    case TestTake(tick, inputs) => NextTake(n, tick, inputs)
    case TestStage =>
      var (d, staged) := Stage(n.dev, n.pc.point.sequence, n.pc.generation);
      if staged then n.(dev := d, pc := ReadyToCommit(n.pc.point))
      else n.(dev := RequireReset(d, HOLD_REASON_INTERNAL_ERROR), pc := Over)
    case TestCommit => n.(image := PlacePoint(n.image, n.pc.point.target), pc := AtExchange)
    case SessionLost(reason) =>
      n.(dev := if reason.Some? then RequireReset(n.dev, reason.value) else n.dev, pc := Over)
    case SessionBegins(image') => n.(image := image', test := false, pc := AtExchange)
  }

  function NextTake(n: Node, tick: U32, inputs: Inputs): Node {
    match Take(n.dev, tick)
    case (d, TakePoint(p, generation)) => n.(dev := d, pc := Taken(p, generation, n.epoch), taken := n.taken + 1)
    // The previous targets stay: motion is never extrapolated.
    case (d, TakeGrace) => n.(dev := d, pc := AtExchange)
    case (d, _) => n.(dev := d, pc := AtExchange, image := Relatched(n.image, inputs))
  }

  // ----------------------------------------------------------------- the invariant

  // Everything confirmed is, in order, what was accepted, and went out in the image
  // of its own exchange.
  predicate LogMatches(n: Node) {
    && |n.log| <= |n.accepted|
    && forall i :: 0 <= i < |n.log| ==>
         n.log[i].sequence == n.accepted[i].sequence && HoldsTargets(n.log[i].image, n.accepted[i].target)
  }

  // Conservation: accepted points are executed, then staged or in hand, then queued.
  predicate Conserved(n: Node) {
    && |n.log| <= n.taken <= |n.log| + 1
    && n.taken <= |n.accepted|
    && (!n.dev.resetRequired ==> n.accepted[n.taken..] == n.dev.queue)
    && (n.taken > 0 || n.dev.state == RUNNING ==> |n.accepted| >= PREFILL_COUNT)
    && (n.dev.state == PREFILL ==> n.taken == 0)
    && (!n.dev.resetRequired && n.taken == |n.log| + 1 ==> n.dev.staged.Some? || InHand(n))
  }

  // The task holds a point of the current generation that it has not staged yet.
  predicate InHand(n: Node) { n.pc.Taken? && n.pc.epoch == n.epoch }

  predicate StagedMatches(n: Node) {
    n.dev.staged.Some? ==>
      && n.taken == |n.log| + 1 <= |n.accepted|
      && n.dev.staged.value.sequence == n.accepted[|n.log|].sequence
      && n.test && (n.pc.AtExchange? || n.pc.ReadyToCommit?)
      && (n.pc.AtExchange? ==> HoldsTargets(n.image, n.accepted[|n.log|].target))
      && (n.pc.ReadyToCommit? ==> n.pc.point == n.accepted[|n.log|])
  }

  predicate TakenMatches(n: Node) {
    n.pc.Taken? ==>
      && n.test
      && n.pc.epoch <= n.epoch < n.pc.epoch + GENERATIONS
      && n.pc.generation == n.pc.epoch % GENERATIONS
      && (InHand(n) && !n.dev.resetRequired ==>
            n.taken == |n.log| + 1 <= |n.accepted| && n.pc.point == n.accepted[|n.log|])
  }

  predicate Inv(n: Node) {
    && WellFormed(n.dev)
    && n.dev.generation == n.epoch % GENERATIONS
    && Conserved(n)
    && LogMatches(n)
    && StagedMatches(n)
    && TakenMatches(n)
  }

  lemma StartHolds(image: Image)
    ensures Inv(Start(image))
  {
  }

  lemma GenerationsDiffer(a: nat, b: nat)
    requires a <= b < a + GENERATIONS && a % GENERATIONS == b % GENERATIONS
    ensures a == b
  {
  }

  lemma FramesKeepInv(n: Node, e: Event)
    requires Inv(n) && Enabled(n, e)
    requires e.ResetFrame? || e.ApplyFrame? || e.HoldDemand? || e.Received? || e.Rejected?
    ensures Inv(Next(n, e))
  {
    var n' := Next(n, e);
    if e.ApplyFrame? && Push(n.dev, e.point).1 == PushOk {
      assert n'.accepted[n'.taken..] == n.accepted[n.taken..] + [e.point];
    }
  }

  lemma GoodExchangeKeepsInv(n: Node, e: Event)
    requires Inv(n) && Enabled(n, e) && e.GoodExchange?
    ensures Inv(Next(n, e))
  {
    hide HoldsTargets;
  }

  lemma OtherExchangeKeepsInv(n: Node, e: Event)
    requires Inv(n) && Enabled(n, e)
    requires e.ToleratedExchange? || e.LostExchange? || e.OtherHandler? || e.TestFault?
             || e.SessionLost? || e.SessionBegins?
    ensures Inv(Next(n, e))
  {
    hide HoldsTargets;
  }

  // A point leaves only once the buffer runs, and it is the oldest one queued.
  lemma TakePointShape(d: Device, tick: U32)
    requires WellFormed(d) && Take(d, tick).1.TakePoint?
    ensures
      var (d', taken) := Take(d, tick);
      && d.queue != [] && taken.point == d.queue[0] && taken.generation == d.generation
      && d' == d.(state := RUNNING, graceCycles := 0, queue := d.queue[1..])
      && (d.state == RUNNING || |d.queue| >= PREFILL_COUNT)
      && (d.state == PREFILL || d.state == RUNNING)
  {
  }

  // Otherwise the queue is kept, or dropped as a whole.
  lemma TakeNothingShape(d: Device, tick: U32)
    requires WellFormed(d) && !Take(d, tick).1.TakePoint?
    ensures
      var d' := Take(d, tick).0;
      && WellFormed(d') && d'.generation == d.generation
      && (d'.resetRequired || (d'.queue == d.queue && d'.state == d.state && d'.staged == d.staged && !d.resetRequired))
  {
  }

  lemma TakePointKeepsInv(n: Node, e: Event)
    requires Inv(n) && Enabled(n, e) && e.TestTake? && Take(n.dev, e.tick).1.TakePoint?
    ensures Inv(Next(n, e))
  {
    TakePointShape(n.dev, e.tick);
    hide Take, HoldsTargets, Relatched;
    assert n.dev.queue[0] == n.accepted[n.taken..][0];
    assert n.accepted[n.taken + 1..] == n.accepted[n.taken..][1..];
  }

  lemma TakeNothingKeepsInv(n: Node, e: Event)
    requires Inv(n) && Enabled(n, e) && e.TestTake? && !Take(n.dev, e.tick).1.TakePoint?
    ensures Inv(Next(n, e))
  {
    TakeNothingShape(n.dev, e.tick);
    hide Take, HoldsTargets, Relatched;
  }

  lemma StageKeepsInv(n: Node, e: Event)
    requires Inv(n) && Enabled(n, e) && (e.TestStage? || e.TestCommit?)
    ensures Inv(Next(n, e))
  {
    if e.TestStage? {
      if n.pc.generation == n.dev.generation {
        GenerationsDiffer(n.pc.epoch, n.epoch);
      }
    } else {
      PlacedPointIsHeld(n.image, n.pc.point.target);
    }
  }

  lemma StepKeepsInv(n: Node, e: Event)
    requires Inv(n) && Enabled(n, e)
    ensures Inv(Next(n, e))
  {
    hide *;
    match e
    case ResetFrame(_) => FramesKeepInv(n, e);
    case ApplyFrame(_) => FramesKeepInv(n, e);
    case HoldDemand(_) => FramesKeepInv(n, e);
    case Received(_) => FramesKeepInv(n, e);
    case Rejected(_, _) => FramesKeepInv(n, e);
    case TestTake(tick, _) =>
      if Take(n.dev, tick).1.TakePoint? { TakePointKeepsInv(n, e); } else { TakeNothingKeepsInv(n, e); }
    case TestStage => StageKeepsInv(n, e);
    case TestCommit => StageKeepsInv(n, e);
    case GoodExchange(_) => GoodExchangeKeepsInv(n, e);
    case _ => OtherExchangeKeepsInv(n, e);
  }

  // ------------------------------------------------------------- over whole runs

  // A run: each state follows from the one before by the event between them.
  predicate Run(states: seq<Node>, events: seq<Event>) {
    && |states| == |events| + 1
    && states[0] == Start(states[0].image)
    && forall i :: 0 <= i < |events| ==>
         Enabled(states[i], events[i]) && states[i + 1] == Next(states[i], events[i])
  }

  lemma {:induction false} RunKeepsInv(states: seq<Node>, events: seq<Event>, k: nat)
    requires Run(states, events) && k < |states|
    ensures Inv(states[k])
  {
    hide Inv, Next, Enabled;
    if k == 0 {
      StartHolds(states[0].image);
    } else {
      RunKeepsInv(states, events, k - 1);
      assert Enabled(states[k - 1], events[k - 1]) && states[k] == Next(states[k - 1], events[k - 1]);
      StepKeepsInv(states[k - 1], events[k - 1]);
    }
  }

  // Whenever an exchange confirms a point, it is the next accepted one, and the image
  // that exchange sent commanded that point's six targets, each at its own slave and axis.
  lemma ConfirmationIsSound(states: seq<Node>, events: seq<Event>, k: nat)
    requires Run(states, events) && k < |events| && events[k].GoodExchange?
    requires Confirm(states[k].dev, events[k].cycle).1
    ensures
      var n, n' := states[k], states[k + 1];
      && |n.log| < |n.accepted|
      && n'.dev.seen.lastExecuted == Some(n.accepted[|n.log|].sequence)
      && n'.log == n.log + [Execution(n.accepted[|n.log|].sequence, n.image)]
      && HoldsTargets(n.image, n.accepted[|n.log|].target)
  {
    RunKeepsInv(states, events, k);
    assert Enabled(states[k], events[k]) && states[k + 1] == Next(states[k], events[k]);
  }

  // The executed points are a prefix of the accepted ones: none repeated, skipped or
  // left over from an earlier generation, and none before eight were accepted.
  lemma ExecutedIsPrefixOfAccepted(states: seq<Node>, events: seq<Event>, k: nat)
    requires Run(states, events) && k < |states|
    ensures
      var n := states[k];
      && |n.log| <= |n.accepted|
      && (forall i :: 0 <= i < |n.log| ==>
            n.log[i].sequence == n.accepted[i].sequence && HoldsTargets(n.log[i].image, n.accepted[i].target))
      && (n.log != [] ==> |n.accepted| >= PREFILL_COUNT)
  {
    RunKeepsInv(states, events, k);
  }

  // While the buffer is active every accepted point is executed, staged or in hand, or queued.
  lemma NothingIsLost(states: seq<Node>, events: seq<Event>, k: nat)
    requires Run(states, events) && k < |states| && !states[k].dev.resetRequired
    ensures
      var n := states[k];
      |n.accepted| == |n.log| + (if n.dev.staged.Some? || InHand(n) then 1 else 0) + |n.dev.queue|
  {
    RunKeepsInv(states, events, k);
    var n := states[k];
    assert |n.accepted[n.taken..]| == |n.accepted| - n.taken;
  }

  lemma StepKeepsConsecutive(n: Node, e: Event)
    requires Inv(n) && Enabled(n, e) && Consecutive(n.dev)
    ensures Consecutive(Next(n, e).dev)
  {
    match e
    case ApplyFrame(p) => PushKeepsShape(n.dev, p); hide Push, Consecutive;
    case TestTake(tick, _) => TakeKeepsShape(n.dev, tick); hide Take, Consecutive;
    case _ => hide LogMatches, Conserved, StagedMatches, TakenMatches, Take, Push;
  }

  lemma StepKeepsFirstReason(n: Node, e: Event)
    requires Enabled(n, e) && !e.ResetFrame? && n.dev.holdReason != HOLD_REASON_NONE
    ensures Next(n, e).dev.holdReason == n.dev.holdReason
  {
  }

  // Wherever frames, holds, exchanges and takes fall, the queue holds consecutive sequence
  // numbers that end just before the expected one.
  lemma {:induction false} QueueIsConsecutive(states: seq<Node>, events: seq<Event>, k: nat)
    requires Run(states, events) && k < |states|
    ensures WellFormed(states[k].dev) && Consecutive(states[k].dev)
    decreases k
  {
    RunKeepsInv(states, events, k);
    if k > 0 {
      QueueIsConsecutive(states, events, k - 1);
      RunKeepsInv(states, events, k - 1);
      hide Next, Enabled, Consecutive;
      assert Enabled(states[k - 1], events[k - 1]) && states[k] == Next(states[k - 1], events[k - 1]);
      StepKeepsConsecutive(states[k - 1], events[k - 1]);
    }
  }

  // Once a hold reason is latched it is the one reported until the next RESET, whatever
  // demands a hold in between.
  lemma {:induction false} ReasonLastsUntilReset(states: seq<Node>, events: seq<Event>, i: nat, j: nat)
    requires Run(states, events) && i <= j < |states|
    requires forall k :: i <= k < j ==> !events[k].ResetFrame?
    requires states[i].dev.holdReason != HOLD_REASON_NONE
    ensures states[j].dev.holdReason == states[i].dev.holdReason
    decreases j
  {
    if i < j {
      ReasonLastsUntilReset(states, events, i, j - 1);
      hide Next, Enabled;
      assert Enabled(states[j - 1], events[j - 1]) && states[j] == Next(states[j - 1], events[j - 1]);
      StepKeepsFirstReason(states[j - 1], events[j - 1]);
    }
  }

  // What keeps a point in the task's hand from being staged.
  predicate Interrupts(n: Node, e: Event) {
    || e.ResetFrame? || e.HoldDemand?
    || (e.ApplyFrame? && (Push(n.dev, e.point).1.PushSequenceError? || Push(n.dev, e.point).1.PushFull?))
  }

  predicate Interrupted(n: Node) { n.dev.resetRequired || !InHand(n) }

  lemma StageFailsWhenInterrupted(n: Node)
    requires Inv(n) && n.pc.Taken?
    ensures
      var n' := Next(n, TestStage);
      && n'.image == n.image && n'.log == n.log
      && if Interrupted(n) then n'.pc.Over? && n'.dev.state == HOLD && n'.dev.staged == None
         else n'.pc == ReadyToCommit(n.pc.point) && n'.dev.staged.Some?
  {
    if n.pc.generation == n.dev.generation {
      GenerationsDiffer(n.pc.epoch, n.epoch);
    }
    hide LogMatches;
  }

  // Only frames and holds come between taking and staging, and each either interrupts or not.
  lemma InHandStep(n: Node, e: Event)
    requires Inv(n) && Enabled(n, e) && n.pc.Taken? && !e.TestStage?
    ensures Next(n, e).pc == n.pc && Next(n, e).image == n.image
    ensures Interrupted(Next(n, e)) <==> Interrupted(n) || Interrupts(n, e)
  {
  }

  // Something interrupts between two states.
  predicate InterruptedBetween(states: seq<Node>, events: seq<Event>, i: nat, j: nat)
    requires |states| == |events| + 1 && i <= j <= |events|
  {
    exists k :: i <= k < j && Interrupts(states[k], events[k])
  }

  lemma BetweenGrows(states: seq<Node>, events: seq<Event>, i: nat, j: nat)
    requires |states| == |events| + 1 && i < j <= |events|
    ensures InterruptedBetween(states, events, i, j) <==>
            InterruptedBetween(states, events, i, j - 1) || Interrupts(states[j - 1], events[j - 1])
  {
    hide Interrupts;
  }

  lemma {:induction false} InHandUntilStaged(states: seq<Node>, events: seq<Event>, i: nat, j: nat)
    requires Run(states, events) && i <= j <= |events|
    requires states[i].pc.Taken? && !Interrupted(states[i])
    requires forall k :: i <= k < j ==> !events[k].TestStage?
    ensures states[j].pc == states[i].pc && states[j].image == states[i].image
    ensures Interrupted(states[j]) <==> InterruptedBetween(states, events, i, j)
    decreases j
  {
    hide Next, Enabled, Inv, Interrupted, Interrupts, Start;
    if i < j {
      InHandUntilStaged(states, events, i, j - 1);
      RunKeepsInv(states, events, j - 1);
      assert Enabled(states[j - 1], events[j - 1]) && states[j] == Next(states[j - 1], events[j - 1]);
      InHandStep(states[j - 1], events[j - 1]);
      BetweenGrows(states, events, i, j);
    }
    hide Run;
  }

  // A hold, a RESET or a refused APPLY between taking a point and staging it costs the whole
  // session, and nothing else does there; the taken point is then neither sent nor confirmed.
  lemma InterruptionEndsSession(states: seq<Node>, events: seq<Event>, i: nat, j: nat)
    requires Run(states, events) && i < j < |events|
    requires events[i].TestTake? && Take(states[i].dev, events[i].tick).1.TakePoint?
    requires events[j].TestStage? && forall k :: i < k < j ==> !events[k].TestStage?
    ensures states[j + 1].pc.Over? <==> InterruptedBetween(states, events, i + 1, j)
    ensures states[j + 1].image == states[i].image
    ensures states[j + 1].pc.Over? ==> states[j + 1].dev.state == HOLD && states[j + 1].dev.staged == None
  {
    RunKeepsInv(states, events, i);
    RunKeepsInv(states, events, j);
    assert Enabled(states[i], events[i]) && states[i + 1] == Next(states[i], events[i]);
    TakePointShape(states[i].dev, events[i].tick);
    assert Enabled(states[j], events[j]) && states[j + 1] == Next(states[j], events[j]);
    assert !Interrupted(states[i + 1]);
    InHandUntilStaged(states, events, i + 1, j);
    StageFailsWhenInterrupted(states[j]);
    hide Run, Interrupts, Take, Inv;
  }

  // A commit puts the whole point into the next image.
  lemma CommitHolds(n: Node)
    requires n.pc.ReadyToCommit?
    ensures HoldsTargets(Next(n, TestCommit).image, n.pc.point.target)
  {
    PlacedPointIsHeld(n.image, n.pc.point.target);
  }

  // A hold between staging and the exchange stops the confirmation.
  lemma HoldStopsConfirmation(n: Node, reason: U8, cycle: U32)
    requires Inv(n)
    ensures !Confirm(Next(n, HoldDemand(reason)).dev, cycle).1
  {
  }

  // It does not recall the point: the task still commits its targets to the next image.
  lemma HoldDoesNotRecall(n: Node, reason: U8)
    requires n.pc.ReadyToCommit?
    ensures HoldsTargets(Next(Next(n, HoldDemand(reason)), TestCommit).image, n.pc.point.target)
  {
    CommitHolds(Next(n, HoldDemand(reason)));
    hide HoldsTargets, PlacePoint;
  }
}
