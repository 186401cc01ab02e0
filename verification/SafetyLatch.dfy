// How the device notices a silent host: the sequence filter that decides whether a command
// is news, the two timeouts, and the safety request they latch until it is cleared by hand.
module SafetyLatch {
  import opened Words

  const FORWARD_MAX := 127
  const COMMAND_TIMEOUT_MS := 20
  const HEARTBEAT_TIMEOUT_MS := 300

  // ------------------------------------------------------------- the sequence filter

  function Sub8(a: U8, b: U8): U8 { if a >= b then a - b else a - b + 0x100 }

  function AcceptSequence(last: Option<U8>, sequence: U8): (Option<U8>, bool) {
    if last.None? then (Some(sequence), true)
    else
      var forward := Sub8(sequence, last.value);
      if forward == 0 || forward > FORWARD_MAX then (last, false) else (Some(sequence), true)
  }

  // The filter sees only the low byte, yet for frames at most 127 ahead of or 128 behind
  // the last accepted one it accepts exactly the newer ones.
  lemma AcceptsExactlyNewer(last: nat, sent: nat)
    requires last - 128 <= sent <= last + FORWARD_MAX
    ensures AcceptSequence(Some(last % 0x100), sent % 0x100).1 <==> sent > last
    ensures AcceptSequence(Some(last % 0x100), sent % 0x100).0 == Some((if sent > last then sent else last) % 0x100)
  {
    var gap := sent - last;
    assert Sub8(sent % 0x100, last % 0x100) == if gap >= 0 then gap else gap + 0x100;
  }

  // The first frame after start-up is always news.
  lemma FirstIsAccepted(sequence: U8)
    ensures AcceptSequence(None, sequence) == (Some(sequence), true)
  {
  }

  // ---------------------------------------------------------------------- the latch

  datatype Guard = Guard(
    command: Option<U32>, heartbeat: Option<U32>,
    timedOut: bool, online: bool, commandReported: bool, heartbeatReported: bool,
    holdPosition: bool, quickStop: bool)

  datatype Event =
    | CommandPublished(tick: U32)
    | HeartbeatPublished(tick: U32)
    | QuickStopFrame
    | CheckTimeout(now: U32, trajectoryHold: bool)
    | ClearRequest

  function Init(): Guard { Guard(None, None, true, false, false, false, false, false) }

  function Latched(g: Guard): Guard { g.(holdPosition := true, quickStop := true) }

  predicate Expired(received: Option<U32>, now: U32, limit: nat) {
    received.Some? && Sub32(now, received.value) >= limit
  }

  // A trajectory on hold needs no commands.
  function CheckCommand(g: Guard, now: U32, trajectoryHold: bool): Guard {
    if trajectoryHold then g.(timedOut := false, commandReported := false)
    else if g.command.None? then g.(timedOut := true)
    else if Expired(g.command, now, COMMAND_TIMEOUT_MS) then
      (if g.commandReported then g else Latched(g)).(timedOut := true, commandReported := true)
    else g.(timedOut := false, commandReported := false)
  }

  function CheckHeartbeat(g: Guard, now: U32): Guard {
    if g.heartbeat.None? then g.(online := false)
    else if Expired(g.heartbeat, now, HEARTBEAT_TIMEOUT_MS) then
      (if g.heartbeatReported then g else Latched(g)).(online := false, heartbeatReported := true)
    else g.(online := true, heartbeatReported := false)
  }

  function Clear(g: Guard): (Guard, bool) {
    if g.timedOut || !g.online then (g, false) else (g.(holdPosition := false, quickStop := false), true)
  }

  function Next(g: Guard, e: Event): Guard {
    match e
    case CommandPublished(tick) => g.(command := Some(tick))
    case HeartbeatPublished(tick) => g.(heartbeat := Some(tick))
    case QuickStopFrame => Latched(g)
    case CheckTimeout(now, hold) => CheckHeartbeat(CheckCommand(g, now, hold), now)
    case ClearRequest => Clear(g).0
  }

  predicate Run(states: seq<Guard>, events: seq<Event>) {
    && |states| == |events| + 1
    && states[0] == Init()
    && forall i :: 0 <= i < |events| ==> states[i + 1] == Next(states[i], events[i])
  }

  // A timeout is latched only when first reported; that it is latched whenever it lasts
  // rests on the clear being refused meanwhile.
  predicate Inv(g: Guard) {
    && (g.commandReported ==> g.timedOut && g.quickStop && g.command.Some?)
    && (g.heartbeatReported ==> !g.online && g.quickStop && g.heartbeat.Some?)
    && (g.quickStop ==> g.holdPosition)
  }

  lemma StepKeepsInv(g: Guard, e: Event)
    requires Inv(g)
    ensures Inv(Next(g, e))
  {
    hide Sub32;
  }

  lemma {:induction false} RunKeepsInv(states: seq<Guard>, events: seq<Event>, k: nat)
    requires Run(states, events) && k < |states|
    ensures Inv(states[k])
    decreases k
  {
    if k > 0 {
      RunKeepsInv(states, events, k - 1);
      StepKeepsInv(states[k - 1], events[k - 1]);
      hide Inv, Next;
    }
  }

  // After every check that finds the commands or the heartbeat expired, both safety
  // requests stand, whether or not this is the check that reported it.
  lemma SilenceIsLatched(states: seq<Guard>, events: seq<Event>, k: nat)
    requires Run(states, events) && k < |events| && events[k].CheckTimeout?
    requires
      || (!events[k].trajectoryHold && Expired(states[k].command, events[k].now, COMMAND_TIMEOUT_MS))
      || Expired(states[k].heartbeat, events[k].now, HEARTBEAT_TIMEOUT_MS)
    ensures states[k + 1].quickStop && states[k + 1].holdPosition
  {
    RunKeepsInv(states, events, k);
    assert states[k + 1] == Next(states[k], events[k]);
  }

  // A standing request goes away only by a clear, and a clear works exactly when the last
  // check found both the commands and the host present.
  lemma OnlyAClearReleases(g: Guard, e: Event)
    requires Inv(g) && g.quickStop
    ensures !Next(g, e).quickStop <==> e.ClearRequest? && !g.timedOut && g.online
  {
  }

  // The tick of the latest command, and of the latest heartbeat.
  function CommandTick(events: seq<Event>, k: nat): Option<U32>
    requires k <= |events|
    decreases k
  {
    if k == 0 then None
    else if events[k - 1].CommandPublished? then Some(events[k - 1].tick) else CommandTick(events, k - 1)
  }

  function HeartbeatTick(events: seq<Event>, k: nat): Option<U32>
    requires k <= |events|
    decreases k
  {
    if k == 0 then None
    else if events[k - 1].HeartbeatPublished? then Some(events[k - 1].tick) else HeartbeatTick(events, k - 1)
  }

  // Milliseconds passed, across one wrap of the tick.
  function Age(now: U32, tick: U32): nat { if now >= tick then now - tick else now - tick + 0x1_0000_0000 }

  predicate Silent(received: Option<U32>, now: U32, limit: nat) {
    received.Some? && Age(now, received.value) >= limit
  }

  lemma CheckKeepsTicks(g: Guard, now: U32, trajectoryHold: bool)
    ensures CheckCommand(g, now, trajectoryHold).command == g.command
    ensures CheckCommand(g, now, trajectoryHold).heartbeat == g.heartbeat
    ensures CheckHeartbeat(g, now).command == g.command && CheckHeartbeat(g, now).heartbeat == g.heartbeat
  {
    hide Expired;
  }

  lemma StepKeepsTicks(g: Guard, e: Event)
    ensures Next(g, e).command == if e.CommandPublished? then Some(e.tick) else g.command
    ensures Next(g, e).heartbeat == if e.HeartbeatPublished? then Some(e.tick) else g.heartbeat
  {
    if e.CheckTimeout? {
      CheckKeepsTicks(g, e.now, e.trajectoryHold);
      CheckKeepsTicks(CheckCommand(g, e.now, e.trajectoryHold), e.now, e.trajectoryHold);
    }
    hide CheckCommand, CheckHeartbeat;
  }

  lemma {:induction false} TicksAreKept(states: seq<Guard>, events: seq<Event>, k: nat)
    requires Run(states, events) && k < |states|
    ensures states[k].command == CommandTick(events, k) && states[k].heartbeat == HeartbeatTick(events, k)
    decreases k
  {
    if k > 0 {
      hide Next, Init;
      TicksAreKept(states, events, k - 1);
      assert states[k] == Next(states[k - 1], events[k - 1]);
      StepKeepsTicks(states[k - 1], events[k - 1]);
    }
  }

  // Over every run, what each event makes of the quick stop request. A check raises it exactly
  // when commands have been silent for 20 ms outside a held trajectory, or the host for 300 ms;
  // with both sources present it changes nothing.
  lemma RequestRule(states: seq<Guard>, events: seq<Event>, k: nat)
    requires Run(states, events) && k < |events|
    ensures
      var g, g' := states[k], states[k + 1];
      g'.quickStop <==>
      match events[k]
      case QuickStopFrame => true
      case CheckTimeout(now, trajectoryHold) =>
        || g.quickStop
        || (!trajectoryHold && Silent(CommandTick(events, k), now, 20))
        || Silent(HeartbeatTick(events, k), now, 300)
      case ClearRequest => g.quickStop && (g.timedOut || !g.online)
      case _ => g.quickStop
    ensures states[k].holdPosition == states[k].quickStop ==> states[k + 1].holdPosition == states[k + 1].quickStop
  {
    TicksAreKept(states, events, k);
    RunKeepsInv(states, events, k);
    assert states[k + 1] == Next(states[k], events[k]);
  }

  // And of what the checks report: commands are missing, the host is there, and which timeout
  // has been reported.
  lemma CheckRule(states: seq<Guard>, events: seq<Event>, k: nat)
    requires Run(states, events) && k < |events| && events[k].CheckTimeout?
    ensures
      var now := events[k].now;
      && (states[k + 1].timedOut <==>
            !events[k].trajectoryHold && (CommandTick(events, k).None? || Silent(CommandTick(events, k), now, 20)))
      && (states[k + 1].online <==> HeartbeatTick(events, k).Some? && !Silent(HeartbeatTick(events, k), now, 300))
      && (states[k + 1].commandReported <==> !events[k].trajectoryHold && Silent(CommandTick(events, k), now, 20))
      && (states[k + 1].heartbeatReported <==> Silent(HeartbeatTick(events, k), now, 300))
  {
    RunKeepsInv(states, events, k);
    TicksAreKept(states, events, k);
    assert states[k + 1] == Next(states[k], events[k]);
  }

  // A clear says whether it worked.
  lemma ClearAnswers(g: Guard)
    ensures Clear(g).1 <==> !g.timedOut && g.online
    ensures Clear(g).1 ==> !Clear(g).0.quickStop && !Clear(g).0.holdPosition
    ensures !Clear(g).1 ==> Clear(g).0 == g
  {
  }

  // ------------------------------------------------------------------- the object

  class Monitor {
    var command: Option<U32>
    var heartbeat: Option<U32>
    var timedOut: bool
    var online: bool
    var commandReported: bool
    var heartbeatReported: bool
    var holdPosition: bool
    var quickStop: bool

    ghost function Abs(): Guard
      reads this
    {
      Guard(command, heartbeat, timedOut, online, commandReported, heartbeatReported, holdPosition, quickStop)
    }

    constructor ()
      ensures Abs() == Init()
    {
      command, heartbeat := None, None;
      timedOut, online, commandReported, heartbeatReported := true, false, false, false;
      holdPosition, quickStop := false, false;
    }

    method Check(now: U32, trajectoryHold: bool)
      modifies this
      ensures Abs() == Next(old(Abs()), CheckTimeout(now, trajectoryHold))
    {
      if trajectoryHold {
        timedOut, commandReported := false, false;
      } else if command.Some? {
        timedOut := Sub32(now, command.value) >= COMMAND_TIMEOUT_MS;
        if timedOut {
          if !commandReported {
            holdPosition, quickStop, commandReported := true, true, true;
          }
        } else {
          commandReported := false;
        }
      } else {
        timedOut := true;
      }
      if heartbeat.Some? {
        online := Sub32(now, heartbeat.value) < HEARTBEAT_TIMEOUT_MS;
        if !online {
          if !heartbeatReported {
            holdPosition, quickStop, heartbeatReported := true, true, true;
          }
        } else {
          heartbeatReported := false;
        }
      } else {
        online := false;
      }
    }

    method ClearSafetyRequest() returns (cleared: bool)
      modifies this`holdPosition, this`quickStop
      ensures (Abs(), cleared) == Clear(old(Abs()))
    {
      if timedOut || !online {
        return false;
      }
      holdPosition, quickStop := false, false;
      return true;
    }
  }
}
