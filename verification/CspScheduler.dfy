// The host's trajectory scheduler: a mutex-protected state machine that turns a queue
// of joint targets into RESET+APPLY, APPLY and HOLD frames, paced by the credit it
// derives from the device's delayed 0x204 status.
//
// One cycle of the worker thread is two critical sections with an unlocked send
// between them: `Decide`, then `NextSequence` when the link took the frame, then
// `Complete`. Clock comparisons enter as the booleans of `Clock`.
module CspScheduler {
  import opened Words
  import RobotTrajectory

  type Target = RobotTrajectory.Target

  const START_PREFILL := 12
  const EXPECTED_CAPACITY := 15
  const EXPECTED_PREFILL := 8
  const QUEUE_RESERVE := 2

  datatype Stream =
    Idle | StartPending | ResetAwaitingAck | Streaming | Finishing | Holding | ResetRequired | Fault

  datatype Config = Config(low: nat, high: nat, capacity: nat)

  // What the constructor insists on.
  predicate ValidConfig(c: Config) {
    c.capacity >= START_PREFILL && c.low < c.high <= EXPECTED_CAPACITY - QUEUE_RESERVE
  }

  // A decoded 0x204 status. A sequence is None when its valid flag is clear.
  datatype Status = Status(
    state: RobotTrajectory.State, depth: U8, capacity: U8, prefill: U8,
    resetRequired: bool, safetyHold: bool, quickStop: bool,
    expected: Option<U8>, lastAccepted: Option<U8>,
    generation: U16, accepted: U16, executed: U16, events: Events)

  // Device counters that must not move while streaming.
  datatype Events = Events(rejected: U16, underrun: U16, overflow: U16, expired: U16)

  // APPLY frames sent and acknowledged since the RESET was acknowledged.
  datatype Credit = Credit(sent: nat, accepted: nat, tracking: bool, lastAccepted: U16, lastExecuted: U16)

  datatype Host = Host(
    enabled: bool,
    stream: Stream,
    terminal: Stream,
    queue: seq<Target>,
    latest: Option<Target>,
    lastSent: Option<Target>,
    remote: Option<Status>,
    pendingReset: U8,
    generationBefore: U16,
    activeGeneration: U16,
    activeEvents: Events,
    credit: Credit,
    emptyWaiting: bool,
    nextSequence: U8)

  // Which deadlines have passed at this cycle.
  datatype Clock = Clock(
    headFresh: bool, latestFresh: bool, remoteFresh: bool, ackExpired: bool, progressExpired: bool, withinGrace: bool)

  datatype Action = NoAction | ResetApply(target: Target) | Apply(target: Target) | Hold(target: Target)

  const NO_CREDIT := Credit(0, 0, false, 0, 0)

  function Init(): Host {
    Host(false, Idle, Holding, [], None, None, None, 0, 0, 0, Events(0, 0, 0, 0), NO_CREDIT, false, 0)
  }

  // ------------------------------------------------------- commands from other threads

  predicate AcceptsPoints(s: Stream) { s == StartPending || s == ResetAwaitingAck || s == Streaming }

  function Submit(c: Config, h: Host, target: Target, allAxes: bool): (Host, bool) {
    if !allAxes then (h, false)
    else if AcceptsPoints(h.stream) && |h.queue| >= c.capacity then (h, false)
    else
      (h.(latest := Some(target), queue := if AcceptsPoints(h.stream) then h.queue + [target] else h.queue), true)
  }

  function SetEnabled(h: Host, on: bool): Host { h.(enabled := on) }

  // The 16-bit difference is trusted only below half the range.
  function Credited(credit: Credit, s: Status): Credit {
    var delta := Sub16(s.accepted, credit.lastAccepted);
    var counted := if delta < 0x8000
                   then credit.(accepted := credit.accepted + delta, lastAccepted := s.accepted) else credit;
    counted.(lastExecuted := s.executed)
  }

  function UpdateRemote(h: Host, s: Status): Host {
    var told := h.(remote := Some(s));
    if h.credit.tracking && s.generation == h.activeGeneration && s.lastAccepted.Some?
    then told.(credit := Credited(h.credit, s)) else told
  }

  function Restarted(h: Host): Host {
    h.(queue := if h.latest.Some? then [h.latest.value] else [],
       lastSent := None,
       credit := h.credit.(sent := 0, accepted := 0, tracking := false),
       emptyWaiting := false,
       stream := StartPending)
  }

  function StartTrajectory(h: Host): (Host, bool) {
    if !h.enabled || h.stream == Fault then (h, false) else (Restarted(h), true)
  }

  datatype Recovery = Recovered | GateClosed | NotRecoverable

  function RecoverTrajectory(h: Host): (Host, Recovery) {
    if !h.enabled then (h, GateClosed)
    else if h.stream != ResetRequired && h.stream != Fault then (h, NotRecoverable)
    else (Restarted(h), Recovered)
  }

  // Leave through Finishing when something was sent that a HOLD has to follow.
  function BeginHold(h: Host, terminal: Stream): Host {
    h.(queue := [], emptyWaiting := false, terminal := terminal,
       stream := if h.lastSent.Some? then Finishing else terminal)
  }

  function FinishTrajectory(h: Host): (Host, bool) {
    if h.stream == StartPending then (h.(queue := [], stream := Holding), true)
    else if h.stream == ResetAwaitingAck || h.stream == Streaming then (BeginHold(h, Holding), true)
    else (h, h.stream == Holding || (h.stream == Finishing && h.terminal == Holding))
  }

  function AbortTrajectory(h: Host): Host {
    if h.stream == Fault then h
    else if h.stream == Finishing then
      if h.terminal != Fault then h.(terminal := ResetRequired) else h
    else if h.stream == ResetAwaitingAck || h.stream == Streaming then BeginHold(h, ResetRequired)
    else h.(queue := [], emptyWaiting := false, stream := ResetRequired)
  }

  function MarkFault(h: Host): Host {
    if h.stream == ResetAwaitingAck || h.stream == Streaming || h.stream == Finishing then BeginHold(h, Fault)
    else h.(queue := [], emptyWaiting := false, stream := Fault)
  }

  // ------------------------------------------------------------------ the worker's cycle

  predicate Latched(s: Status) { s.safetyHold || s.quickStop }

  predicate RemoteActive(s: Status) { s.state == RobotTrajectory.PREFILL || s.state == RobotTrajectory.RUNNING }

  predicate AllowsReset(s: Status) {
    && (s.state == RobotTrajectory.IDLE || s.state == RobotTrajectory.HOLD)
    && s.capacity == EXPECTED_CAPACITY && s.prefill == EXPECTED_PREFILL
    && !Latched(s)
  }

  function DecideStart(h: Host, t: Clock): (Host, Action) {
    var headFresh := h.queue != [] && t.headFresh;
    if h.enabled && |h.queue| >= START_PREFILL && headFresh &&
       h.remote.Some? && AllowsReset(h.remote.value) && t.remoteFresh
    then (h.(generationBefore := h.remote.value.generation, queue := h.queue[1..]), ResetApply(h.queue[0]))
    else if h.enabled && h.queue != [] && !headFresh then (h.(queue := [], stream := ResetRequired), NoAction)
    else (h, NoAction)
  }

  function HoldLast(h: Host): Action {
    if h.lastSent.Some? then Hold(h.lastSent.value) else NoAction
  }

  // The device's status names the RESET frame as its last accepted one.
  predicate ResetAccepted(remote: Option<Status>, generationBefore: U16, pendingReset: U8, t: Clock) {
    && remote.Some? && t.remoteFresh
    && var s := remote.value;
       && RemoteActive(s) && !s.resetRequired && !Latched(s)
       && s.generation != generationBefore
       && s.lastAccepted == Some(pendingReset)
       && s.expected == Some(Inc8(pendingReset))
  }

  predicate SafetyFault(remote: Option<Status>, t: Clock) { remote.Some? && t.remoteFresh && Latched(remote.value) }

  function DecideAck(h: Host, t: Clock): (Host, Action) {
    if !h.enabled || SafetyFault(h.remote, t) then
      (BeginHold(h, if SafetyFault(h.remote, t) then Fault else ResetRequired), HoldLast(h))
    else if ResetAccepted(h.remote, h.generationBefore, h.pendingReset, t) then
      var s := h.remote.value;
      (h.(activeGeneration := s.generation, activeEvents := s.events,
          credit := Credit(0, 0, true, s.accepted, s.executed), stream := Streaming), NoAction)
    else if t.ackExpired then
      (h.(queue := [], terminal := ResetRequired, stream := Finishing), HoldLast(h))
    else (h, NoAction)
  }

  function Unacknowledged(credit: Credit): nat {
    if credit.sent > credit.accepted then credit.sent - credit.accepted else 0
  }

  // Points on the device, plus those sent and not yet counted there.
  function Occupied(s: Status, credit: Credit): nat { s.depth + Unacknowledged(credit) }

  function CreditLimit(s: Status): nat {
    if s.capacity > QUEUE_RESERVE then s.capacity - QUEUE_RESERVE else 0
  }

  function HighWatermark(c: Config, s: Status): nat {
    if c.high < CreditLimit(s) then c.high else CreditLimit(s)
  }

  predicate RemoteFault(remote: Option<Status>, generation: U16, events: Events, credit: Credit, t: Clock) {
    remote == None || !t.remoteFresh ||
    var s := remote.value;
    || !RemoteActive(s) || s.resetRequired || Latched(s)
    || s.generation != generation
    || s.capacity != EXPECTED_CAPACITY || s.prefill != EXPECTED_PREFILL
    || s.events != events
    || (Unacknowledged(credit) > 0 && t.progressExpired)
  }

  predicate MayApply(c: Config, s: Status, credit: Credit) {
    Occupied(s, credit) < CreditLimit(s) && Occupied(s, credit) < HighWatermark(c, s)
  }

  function DecideStreaming(c: Config, h0: Host, t: Clock): (Host, Action) {
    var h := if h0.queue != [] then h0.(emptyWaiting := false) else h0;
    if RemoteFault(h.remote, h.activeGeneration, h.activeEvents, h.credit, t) || !h.enabled then
      (BeginHold(h, if SafetyFault(h.remote, t) then Fault else ResetRequired), HoldLast(h))
    else if h.queue != [] && t.headFresh then
      if MayApply(c, h.remote.value, h.credit) then (h.(queue := h.queue[1..]), Apply(h.queue[0])) else (h, NoAction)
    else DecideWithoutPoint(h, t, MayApply(c, h.remote.value, h.credit))
  }

  // A short local gap repeats the last target; a longer one, or a stale head, holds.
  function DecideWithoutPoint(h: Host, t: Clock, mayApply: bool): (Host, Action) {
    var within := h.queue == [] && (!h.emptyWaiting || t.withinGrace);
    var waiting := if h.queue == [] then h.(emptyWaiting := true) else h;
    if within then
      (waiting, if h.lastSent.Some? && h.latest.Some? && t.latestFresh && mayApply
                then Apply(h.lastSent.value) else NoAction)
    else (BeginHold(h, ResetRequired), HoldLast(h))
  }

  function Decide(c: Config, h: Host, t: Clock): (Host, Action) {
    match h.stream
    case StartPending => DecideStart(h, t)
    case ResetAwaitingAck => DecideAck(h, t)
    case Streaming => DecideStreaming(c, h, t)
    case Finishing => if h.lastSent.Some? then (h, HoldLast(h)) else (h.(stream := h.terminal), NoAction)
    case _ => (h, NoAction)
  }

  // The sequence counter belongs to the worker and moves only when the link took the frame.
  function NextSequence(h: Host): Host { h.(nextSequence := Inc8(h.nextSequence)) }

  function Complete(h: Host, action: Action, sent: bool, sequence: U8): Host {
    if !sent then h.(stream := Fault)
    else
      match action
      case NoAction => h
      case Hold(_) => if h.stream == Finishing then h.(stream := h.terminal) else h
      case ResetApply(target) =>
        var kept := h.(lastSent := Some(target));
        if h.stream == StartPending then kept.(pendingReset := sequence, stream := ResetAwaitingAck) else kept
      case Apply(target) =>
        h.(lastSent := Some(target), credit := h.credit.(sent := h.credit.sent + 1))
  }

  // ----------------------------------------------------------------------- the object

  class Scheduler {
    const config: Config
    var enabled: bool
    var stream: Stream
    var terminal: Stream
    var queue: seq<Target>
    var latest: Option<Target>
    var lastSent: Option<Target>
    var remote: Option<Status>
    var pendingReset: U8
    var generationBefore: U16
    var activeGeneration: U16
    var activeEvents: Events
    var credit: Credit
    var emptyWaiting: bool
    var nextSequence: U8

    ghost function Abs(): Host
      reads this
    {
      Host(enabled, stream, terminal, queue, latest, lastSent, remote, pendingReset, generationBefore,
           activeGeneration, activeEvents, credit, emptyWaiting, nextSequence)
    }

    // An invalid configuration is refused, with an exception, before there is an object.
    static method Create(c: Config) returns (scheduler: Scheduler?)
      ensures scheduler == null <==> c.capacity < 12 || c.low >= c.high || c.high > 13
      ensures scheduler != null ==> fresh(scheduler) && scheduler.config == c && scheduler.Abs() == Init()
    {
      if c.capacity < START_PREFILL || c.low >= c.high || c.high > EXPECTED_CAPACITY - QUEUE_RESERVE {
        return null;
      }
      scheduler := new Scheduler(c);
    }

    constructor (c: Config)
      requires ValidConfig(c)
      ensures config == c && Abs() == Init()
      ensures !enabled && stream == Idle && terminal == Holding && queue == [] && nextSequence == 0
      ensures latest == None && lastSent == None && remote == None && !emptyWaiting
      ensures credit.sent == 0 && credit.accepted == 0 && !credit.tracking
    {
      config := c;
      enabled, stream, terminal, queue := false, Idle, Holding, [];
      latest, lastSent, remote := None, None, None;
      pendingReset, generationBefore, activeGeneration := 0, 0, 0;
      activeEvents, credit := Events(0, 0, 0, 0), NO_CREDIT;
      emptyWaiting, nextSequence := false, 0;
    }

    method SubmitTarget(target: Target, allAxes: bool) returns (taken: bool)
      modifies this`latest, this`queue
      ensures (Abs(), taken) == Submit(config, old(Abs()), target, allAxes)
    {
      if !allAxes {
        return false;
      }
      var acceptsPoints := stream == StartPending || stream == ResetAwaitingAck || stream == Streaming;
      if acceptsPoints && |queue| >= config.capacity {
        return false;
      }
      latest := Some(target);
      if acceptsPoints {
        queue := queue + [target];
      }
      return true;
    }

    method Enable(on: bool)
      modifies this`enabled
      ensures Abs() == SetEnabled(old(Abs()), on)
    {
      enabled := on;
    }

    method UpdateRemoteStatus(status: Status)
      modifies this`remote, this`credit
      ensures Abs() == UpdateRemote(old(Abs()), status)
    {
      remote := Some(status);
      if credit.tracking && status.generation == activeGeneration && status.lastAccepted.Some? {
        var delta := Sub16(status.accepted, credit.lastAccepted);
        if delta < 0x8000 {
          credit := credit.(accepted := credit.accepted + delta, lastAccepted := status.accepted);
        }
        if status.executed != credit.lastExecuted {
          credit := credit.(lastExecuted := status.executed);
        }
      }
    }

    method Restart()
      modifies this`queue, this`lastSent, this`credit, this`emptyWaiting, this`stream
      ensures Abs() == Restarted(old(Abs()))
    {
      queue, lastSent := [], None;
      credit := credit.(sent := 0, accepted := 0, tracking := false);
      emptyWaiting := false;
      if latest.Some? {
        queue := queue + [latest.value];
      }
      stream := StartPending;
    }

    method Start() returns (started: bool)
      modifies this`queue, this`lastSent, this`credit, this`emptyWaiting, this`stream
      ensures (Abs(), started) == StartTrajectory(old(Abs()))
    {
      if !enabled || stream == Fault {
        return false;
      }
      Restart();
      return true;
    }

    method Recover() returns (result: Recovery)
      modifies this`queue, this`lastSent, this`credit, this`emptyWaiting, this`stream
      ensures (Abs(), result) == RecoverTrajectory(old(Abs()))
    {
      if !enabled {
        return GateClosed;
      }
      if stream != ResetRequired && stream != Fault {
        return NotRecoverable;
      }
      Restart();
      return Recovered;
    }

    method BeginHoldLocked(terminalState: Stream)
      modifies this`queue, this`emptyWaiting, this`terminal, this`stream
      ensures Abs() == BeginHold(old(Abs()), terminalState)
    {
      queue, emptyWaiting, terminal := [], false, terminalState;
      stream := if lastSent.Some? then Finishing else terminalState;
    }

    method Finish() returns (done: bool)
      modifies this`queue, this`emptyWaiting, this`terminal, this`stream
      ensures (Abs(), done) == FinishTrajectory(old(Abs()))
    {
      if stream == StartPending {
        queue, stream := [], Holding;
        return true;
      }
      if stream == ResetAwaitingAck || stream == Streaming {
        BeginHoldLocked(Holding);
        return true;
      }
      return stream == Holding || (stream == Finishing && terminal == Holding);
    }

    method Abort()
      modifies this`queue, this`emptyWaiting, this`terminal, this`stream
      ensures Abs() == AbortTrajectory(old(Abs()))
    {
      if stream == Fault {
        return;
      }
      if stream == Finishing {
        if terminal != Fault {
          terminal := ResetRequired;
        }
      } else if stream == ResetAwaitingAck || stream == Streaming {
        BeginHoldLocked(ResetRequired);
      } else {
        queue, emptyWaiting, stream := [], false, ResetRequired;
      }
    }

    method RaiseFault()
      modifies this`queue, this`emptyWaiting, this`terminal, this`stream
      ensures Abs() == MarkFault(old(Abs()))
    {
      if stream == ResetAwaitingAck || stream == Streaming || stream == Finishing {
        BeginHoldLocked(Fault);
      } else {
        queue, emptyWaiting, stream := [], false, Fault;
      }
    }

    method HoldLastSent() returns (action: Action)
      ensures action == HoldLast(Abs())
    {
      action := if lastSent.Some? then Hold(lastSent.value) else NoAction;
    }

    method CycleStart(t: Clock) returns (action: Action)
      modifies this`queue, this`stream, this`generationBefore
      ensures (Abs(), action) == DecideStart(old(Abs()), t)
    {
      action := NoAction;
      var available := queue != [];
      var headFresh := available && t.headFresh;
      var remoteReady := remote.Some? && AllowsReset(remote.value) && t.remoteFresh;
      if enabled && |queue| >= START_PREFILL && headFresh && remoteReady {
        generationBefore := remote.value.generation;
        action := ResetApply(queue[0]);
        queue := queue[1..];
      } else if enabled && available && !headFresh {
        queue, stream := [], ResetRequired;
      }
    }

    method CycleAck(t: Clock) returns (action: Action)
      modifies this`queue, this`emptyWaiting, this`terminal, this`stream,
               this`activeGeneration, this`activeEvents, this`credit
      ensures (Abs(), action) == DecideAck(old(Abs()), t)
    {
      action := NoAction;
      var safetyFault := remote.Some? && t.remoteFresh && Latched(remote.value);
      if !enabled || safetyFault {
        action := HoldLastSent();
        BeginHoldLocked(if safetyFault then Fault else ResetRequired);
      } else if ResetAccepted(remote, generationBefore, pendingReset, t) {
        activeGeneration, activeEvents := remote.value.generation, remote.value.events;
        credit := Credit(0, 0, true, remote.value.accepted, remote.value.executed);
        stream := Streaming;
      } else if t.ackExpired {
        queue, terminal, stream := [], ResetRequired, Finishing;
        action := HoldLastSent();
      }
    }

    method CycleWithoutPoint(t: Clock, mayApply: bool) returns (action: Action)
      modifies this`queue, this`emptyWaiting, this`terminal, this`stream
      ensures (Abs(), action) == DecideWithoutPoint(old(Abs()), t, mayApply)
    {
      action := NoAction;
      var within := false;
      if queue == [] {
        within := !emptyWaiting || t.withinGrace;
        emptyWaiting := true;
      }
      if within && lastSent.Some? && latest.Some? && t.latestFresh && mayApply {
        action := Apply(lastSent.value);
      } else if !within {
        queue, emptyWaiting := [], false;
        action := HoldLastSent();
        BeginHoldLocked(ResetRequired);
      }
    }

    method CycleStreaming(t: Clock) returns (action: Action)
      modifies this`queue, this`emptyWaiting, this`terminal, this`stream
      ensures (Abs(), action) == DecideStreaming(config, old(Abs()), t)
    {
      action := NoAction;
      if queue != [] {
        emptyWaiting := false;
      }
      if RemoteFault(remote, activeGeneration, activeEvents, credit, t) || !enabled {
        action := HoldLastSent();
        BeginHoldLocked(if SafetyFault(remote, t) then Fault else ResetRequired);
      } else {
        var mayApply := MayApply(config, remote.value, credit);
        if queue != [] && t.headFresh {
          if mayApply {
            action := Apply(queue[0]);
            queue := queue[1..];
          }
        } else {
          action := CycleWithoutPoint(t, mayApply);
        }
      }
    }

    // The first critical section of a cycle.
    method Cycle(t: Clock) returns (action: Action)
      modifies this`queue, this`emptyWaiting, this`terminal, this`stream,
               this`generationBefore, this`activeGeneration, this`activeEvents, this`credit
      ensures (Abs(), action) == Decide(config, old(Abs()), t)
    {
      action := NoAction;
      match stream {
        case StartPending => action := CycleStart(t);
        case ResetAwaitingAck => action := CycleAck(t);
        case Streaming => action := CycleStreaming(t);
        case Finishing =>
          if lastSent.Some? {
            action := HoldLastSent();
          } else {
            stream := terminal;
          }
        case _ =>
      }
    }

    // The unlocked send: `linkTakesFrame` is what the driver's send function answers.
    method SendCommand(linkTakesFrame: bool) returns (sent: bool, sequence: U8)
      modifies this`nextSequence
      ensures sent == linkTakesFrame && sequence == old(nextSequence)
      ensures Abs() == if sent then NextSequence(old(Abs())) else old(Abs())
    {
      sequence := nextSequence;
      sent := linkTakesFrame;
      if sent {
        nextSequence := Inc8(nextSequence);
      }
    }

    // The second critical section.
    method CompleteCycle(action: Action, sent: bool, sequence: U8)
      requires action != NoAction
      modifies this`stream, this`lastSent, this`pendingReset, this`credit
      ensures Abs() == Complete(old(Abs()), action, sent, sequence)
    {
      if !sent {
        stream := Fault;
      } else if action.Hold? {
        if stream == Finishing {
          stream := terminal;
        }
      } else {
        lastSent := Some(action.target);
        if action.ResetApply? && stream == StartPending {
          pendingReset := sequence;
          stream := ResetAwaitingAck;
        } else if action.Apply? {
          credit := credit.(sent := credit.sent + 1);
        }
      }
    }
  }
}
