// Host and device joined by two FIFO channels that may lose messages: 0x180 frames one
// way, 0x204 statuses the other.
//
// The state carries unbounded shadows of the wrapping counters on the wire (`sent`,
// `received`, `accepted`, and those inside `Packet` and `Snap`). They are history: no
// step's outcome depends on them. The one assumption is in `Enabled`: when a fresh status
// may acknowledge a RESET, the host has sent fewer than 256 frames beyond the last one the
// device had read when it composed that status. Runs in which a fresh status trails further
// behind are left out, be it by its age or by 256 frames lost in a row.
module Link {
  import opened Words
  import opened RobotTrajectory
  import opened CspScheduler
  import E = Execution

  datatype Kind = ResetFrame | ApplyFrame | HoldFrame

  datatype Frame = Frame(kind: Kind, sequence: U8, target: RobotTrajectory.Target)

  // A frame in flight and its place in the history of sent frames.
  datatype Packet = Packet(index: nat, frame: Frame)

  // A status in flight and the state of the shadows when it was composed.
  datatype Snap = Snap(status: Status, accepted: nat, received: nat)

  // The worker between its two critical sections.
  datatype Pending = Quiet | Decided(action: Action) | SentOut(action: Action, sequence: U8)

  // Shadows at the moment the current stream's RESET was acknowledged.
  datatype Base = Base(accepted: nat, sent: nat)

  datatype Sys = Sys(
    cfg: Config,
    host: Host,
    pending: Pending,
    // every frame the link ever took
    sent: seq<Frame>,
    channel: seq<Packet>,
    node: E.Node,
    // one past the number of the last frame the device read
    received: nat,
    // points the device ever accepted
    accepted: nat,
    // number of the RESET that began the device's generation
    resetIndex: nat,
    statuses: seq<Snap>,
    known: Option<Snap>,
    base: Base)

  datatype Call =
    | CallSubmit(target: RobotTrajectory.Target, allAxes: bool)
    | CallEnable(on: bool)
    | CallStart
    | CallRecover
    | CallFinish
    | CallAbort
    | CallFault

  datatype Event =
    | HostCall(call: Call)
    | HostDecide(clock: Clock)
    | LinkTakes
    | LinkFails
    | HostComplete
    | Deliver(tick: U32)
    | Lose(lost: nat)
    | Corrupt(corruptReason: U8)
    | DeviceStep(event: E.Event)
    | Report(safetyHold: bool, quickStop: bool)
    | LoseStatus(lostStatus: nat)
    | StatusArrives

  const VALIDITY_MS := 40

  // -------------------------------------------------------------------- the steps

  function Start(cfg: Config, node: E.Node): Sys {
    Sys(cfg, CspScheduler.Init(), Quiet, [], [], node, 0, 0, 0, [], None, Base(0, 0))
  }

  function ApplyCall(c: Config, h: Host, call: Call): Host {
    match call
    case CallSubmit(target, allAxes) => Submit(c, h, target, allAxes).0
    case CallEnable(on) => SetEnabled(h, on)
    case CallStart => StartTrajectory(h).0
    case CallRecover => RecoverTrajectory(h).0
    case CallFinish => FinishTrajectory(h).0
    case CallAbort => AbortTrajectory(h)
    case CallFault => MarkFault(h)
  }

  function FrameOf(action: Action, sequence: U8): Frame
    requires action != NoAction
  {
    match action
    case ResetApply(t) => Frame(ResetFrame, sequence, t)
    case Apply(t) => Frame(ApplyFrame, sequence, t)
    case Hold(t) => Frame(HoldFrame, sequence, t)
  }

  function PointOf(f: Frame, tick: U32): Point { Point(f.sequence, f.target, VALIDITY_MS, tick) }

  // What the receive task does with a frame that passed the CRC.
  function ReadFrame(n: E.Node, f: Frame, tick: U32): E.Node
    requires f.kind.ResetFrame? ==> E.Enabled(n, E.ResetFrame(PointOf(f, tick)))
  {
    var seen := E.Next(n, E.Received(f.sequence));
    match f.kind
    case HoldFrame => E.Next(seen, E.HoldDemand(HOLD_REASON_EXPLICIT_0X180))
    case ResetFrame => E.Next(seen, E.ResetFrame(PointOf(f, tick)))
    case ApplyFrame =>
      var result := Push(seen.dev, PointOf(f, tick)).1;
      var pushed := E.Next(seen, E.ApplyFrame(PointOf(f, tick)));
      if result.PushOk? then pushed
      else E.Next(pushed, E.Rejected(Some(f.sequence), RejectReason(result)))
  }

  function RejectReason(result: PushResult): U8 {
    match result
    case PushOk => 0x00
    case PushResetRequired => 0x08
    case PushSequenceError => 0x09
    case PushFull => 0x0A
  }

  function Accepts(d: RobotTrajectory.Device, f: Frame, tick: U32): bool {
    f.kind.ResetFrame? || (f.kind.ApplyFrame? && Push(d, PointOf(f, tick)).1.PushOk?)
  }

  function StatusOf(d: RobotTrajectory.Device, safetyHold: bool, quickStop: bool): Status
    requires |d.queue| <= RobotTrajectory.CAPACITY
  {
    Status(d.state, |d.queue|, RobotTrajectory.CAPACITY, RobotTrajectory.PREFILL_COUNT,
           d.resetRequired, safetyHold, quickStop, d.expected, d.lastAccepted,
           Low16(d.generation), Low16(d.counts.accepted), Low16(d.counts.executed),
           Events(Low16(d.counts.rejected), Low16(d.counts.underrun),
                  Low16(d.counts.overflow), Low16(d.counts.expired)))
  }

  function Without<T>(s: seq<T>, k: nat): seq<T>
    requires k < |s|
  {
    s[..k] + s[k + 1..]
  }

  predicate Enabled(s: Sys, e: Event) {
    match e
    case HostCall(_) => true
    case HostDecide(t) =>
      s.pending.Quiet? &&
      (s.host.stream == ResetAwaitingAck && t.remoteFresh && s.known.Some? ==>
         |s.sent| < s.known.value.received + 0x100)
    case LinkTakes => s.pending.Decided? && s.pending.action != NoAction
    case LinkFails => s.pending.Decided?
    case HostComplete => s.pending.SentOut?
    case Deliver(tick) =>
      s.channel != [] &&
      (s.channel[0].frame.kind.ResetFrame? ==> E.Enabled(s.node, E.ResetFrame(PointOf(s.channel[0].frame, tick))))
    case Lose(k) => k < |s.channel|
    case Corrupt(_) => s.channel != []
    case DeviceStep(event) => !event.ResetFrame? && !event.ApplyFrame? && E.Enabled(s.node, event)
    case Report(_, _) => |s.node.dev.queue| <= RobotTrajectory.CAPACITY
    case LoseStatus(k) => k < |s.statuses|
    case StatusArrives => s.statuses != []
  }

  // A RESET acknowledged in this cycle starts a new stream.
  function Rebased(s: Sys, h: Host): Base {
    if s.host.stream == ResetAwaitingAck && h.stream == Streaming then Base(s.accepted, |s.sent|) else s.base
  }

  function Next(s: Sys, e: Event): Sys
    requires Enabled(s, e)
  {
    match e
    case HostCall(call) => s.(host := ApplyCall(s.cfg, s.host, call))
    case HostDecide(t) =>
      var (h, action) := Decide(s.cfg, s.host, t);
      s.(host := h, pending := if action == NoAction then Quiet else Decided(action), base := Rebased(s, h))
    case LinkTakes =>
      var f := FrameOf(s.pending.action, s.host.nextSequence);
      s.(host := NextSequence(s.host), sent := s.sent + [f], channel := s.channel + [Packet(|s.sent|, f)],
         pending := SentOut(s.pending.action, f.sequence))
    case LinkFails => s.(host := Complete(s.host, s.pending.action, false, 0), pending := Quiet)
    case HostComplete => s.(host := Complete(s.host, s.pending.action, true, s.pending.sequence), pending := Quiet)
    case Deliver(tick) =>
      var p := s.channel[0];
      s.(channel := s.channel[1..],
         node := ReadFrame(s.node, p.frame, tick),
         received := p.index + 1,
         accepted := if Accepts(s.node.dev, p.frame, tick) then s.accepted + 1 else s.accepted,
         resetIndex := if p.frame.kind.ResetFrame? then p.index else s.resetIndex)
    case Lose(k) => s.(channel := Without(s.channel, k))
    case Corrupt(reason) => s.(channel := s.channel[1..], node := E.Next(s.node, E.Rejected(None, reason)))
    case DeviceStep(event) => s.(node := E.Next(s.node, event))
    case Report(hold, stop) =>
      s.(statuses := s.statuses + [Snap(StatusOf(s.node.dev, hold, stop), s.accepted, s.received)])
    case LoseStatus(k) => s.(statuses := Without(s.statuses, k))
    case StatusArrives =>
      s.(host := UpdateRemote(s.host, s.statuses[0].status), known := Some(s.statuses[0]), statuses := s.statuses[1..])
  }

  predicate Initial(s: Sys) {
    ValidConfig(s.cfg) && s == Start(s.cfg, E.Start(s.node.image))
  }

  predicate Run(states: seq<Sys>, events: seq<Event>) {
    && |states| == |events| + 1
    && Initial(states[0])
    && forall i :: 0 <= i < |events| ==>
         Enabled(states[i], events[i]) && states[i + 1] == Next(states[i], events[i])
  }
}
