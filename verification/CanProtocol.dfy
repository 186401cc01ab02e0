// The CAN application layer on both ends: the 32 bytes of the 0x180 command and the 0x204
// status, their check bytes included, and the order in which a command is checked.
module CanProtocol {
  import opened Words
  import opened RobotTrajectory
  import C = CspScheduler
  import L = Link
  import E = Execution
  import F = FrameCrc

  const PAYLOAD_SIZE := 30

  type Payload = p: seq<U8> | |p| == PAYLOAD_SIZE witness seq(PAYLOAD_SIZE, _ => 0)

  const AXIS_VALID_MASK: U8 := 0x3F
  const FLAG_APPLY: U8 := 0x01
  const FLAG_HOLD: U8 := 0x02
  const FLAG_RESET_APPLY: U8 := 0x05
  const CSP_MODE: U8 := 8
  const PROTOCOL_VERSION: U8 := 2

  const REJECT_CRC_ERROR: U8 := 0x03
  const REJECT_INVALID_AXIS_MASK: U8 := 0x04
  const REJECT_INVALID_FLAGS: U8 := 0x05
  const REJECT_INVALID_MODE: U8 := 0x06
  const REJECT_INVALID_VALIDITY: U8 := 0x07

  // ------------------------------------------------------------------ little-endian

  function Byte(x: nat, n: nat): U8
    requires n < 4
  {
    if n == 0 then x % 0x100
    else if n == 1 then x / 0x100 % 0x100
    else if n == 2 then x / 0x1_0000 % 0x100
    else x / 0x100_0000 % 0x100
  }

  function ReadU16(low: U8, high: U8): U16 { low + 0x100 * high }

  function ReadS32(b0: U8, b1: U8, b2: U8, b3: U8): I32 {
    var u := b0 + 0x100 * b1 + 0x1_0000 * b2 + 0x100_0000 * b3;
    if u < 0x8000_0000 then u else u - 0x1_0000_0000
  }

  // The 32 bits of a two's complement value.
  function Bits(x: I32): U32 { if x >= 0 then x else x + 0x1_0000_0000 }

  lemma SplitBytes(u: U32)
    ensures Byte(u, 0) + 0x100 * Byte(u, 1) + 0x1_0000 * Byte(u, 2) + 0x100_0000 * Byte(u, 3) == u
  {
    var h1 := u / 0x100;
    var h2 := h1 / 0x100;
    var h3 := h2 / 0x100;
    assert u == u % 0x100 + 0x100 * h1 && h1 == h1 % 0x100 + 0x100 * h2 && h2 == h2 % 0x100 + 0x100 * h3;
    assert u / 0x1_0000 == h2 && u / 0x100_0000 == h3;
  }

  lemma SignedRoundTrip(x: I32)
    ensures ReadS32(Byte(Bits(x), 0), Byte(Bits(x), 1), Byte(Bits(x), 2), Byte(Bits(x), 3)) == x
  {
    SplitBytes(Bits(x));
    hide Byte;
  }

  lemma WordRoundTrip(x: U16)
    ensures ReadU16(Byte(x, 0), Byte(x, 1)) == x
  {
  }

  // ------------------------------------------------------------------ the check bytes

  const FRAME_SIZE := 32

  type Frame = f: seq<F.Byte> | |f| == FRAME_SIZE witness seq(FRAME_SIZE, _ => F.ZERO)

  // A byte as the check sees it, bit by bit.
  function WireByte(x: U8): F.Byte {
    var h1 := x / 2;
    var h2 := h1 / 2;
    var h3 := h2 / 2;
    var h4 := h3 / 2;
    var h5 := h4 / 2;
    var h6 := h5 / 2;
    F.Byte(h6 / 2 == 1, h6 % 2 == 1, h5 % 2 == 1, h4 % 2 == 1, h3 % 2 == 1, h2 % 2 == 1, h1 % 2 == 1, x % 2 == 1)
  }

  function ValueOf(b: F.Byte): U8 {
    Bit(b.b0) + 0x02 * Bit(b.b1) + 0x04 * Bit(b.b2) + 0x08 * Bit(b.b3) +
    0x10 * Bit(b.b4) + 0x20 * Bit(b.b5) + 0x40 * Bit(b.b6) + 0x80 * Bit(b.b7)
  }

  lemma Weighed(b: F.Byte, x: nat, h1: nat, h2: nat, h3: nat, h4: nat, h5: nat, h6: nat)
    requires x == 2 * h1 + Bit(b.b0) && h1 == 2 * h2 + Bit(b.b1) && h2 == 2 * h3 + Bit(b.b2)
    requires h3 == 2 * h4 + Bit(b.b3) && h4 == 2 * h5 + Bit(b.b4) && h5 == 2 * h6 + Bit(b.b5)
    requires h6 == 2 * Bit(b.b7) + Bit(b.b6)
    ensures ValueOf(b) == x
  {
  }

  lemma ByteSurvives(x: U8)
    ensures ValueOf(WireByte(x)) == x
  {
    hide ValueOf;
    Weighed(WireByte(x), x, x / 2, x / 2 / 2, x / 2 / 2 / 2, x / 2 / 2 / 2 / 2, x / 2 / 2 / 2 / 2 / 2,
            x / 2 / 2 / 2 / 2 / 2 / 2);
  }

  function WireBytes(p: Payload): seq<F.Byte> {
    seq(PAYLOAD_SIZE, i requires 0 <= i < PAYLOAD_SIZE => WireByte(p[i]))
  }

  function Values(bytes: seq<F.Byte>): Payload
    requires |bytes| == PAYLOAD_SIZE
  {
    seq(PAYLOAD_SIZE, i requires 0 <= i < PAYLOAD_SIZE => ValueOf(bytes[i]))
  }

  function Sent(p: Payload): Frame { F.AppendFrameCrc(WireBytes(p)) }

  // The payload of a frame that passes the check.
  function Checked(frame: Frame): Option<Payload> {
    if F.CheckFrameCrc(frame) then Some(Values(frame[..PAYLOAD_SIZE])) else None
  }

  lemma BytesSurvive(p: Payload)
    ensures Values(WireBytes(p)) == p
  {
    forall i | 0 <= i < PAYLOAD_SIZE ensures ValueOf(WireByte(p[i])) == p[i] {
      ByteSurvives(p[i]);
    }
    hide WireByte, ValueOf;
  }

  // Whatever payload is sent, an undamaged frame passes the check and gives it back.
  lemma FrameRoundTrip(p: Payload)
    ensures Checked(Sent(p)) == Some(p)
  {
    BytesSurvive(p);
    F.AppendedCrcChecks(WireBytes(p));
    hide WireBytes, Values, F.CheckFrameCrc, F.AppendFrameCrc;
  }

  // --------------------------------------------------------------- the 0x180 command

  function FlagsOf(kind: L.Kind): U8 {
    match kind
    case ApplyFrame => FLAG_APPLY
    case HoldFrame => FLAG_HOLD
    case ResetFrame => FLAG_RESET_APPLY
  }

  // The host's side.
  function EncodeCsp(f: L.Frame): Payload {
    seq(PAYLOAD_SIZE, i requires 0 <= i < PAYLOAD_SIZE =>
      if i == 0 then f.sequence
      else if i == 1 then AXIS_VALID_MASK
      else if i == 2 then FlagsOf(f.kind)
      else if i == 3 then CSP_MODE
      else if i < 28 then Byte(Bits(f.target[(i - 4) / 4]), (i - 4) % 4)
      else Byte(L.VALIDITY_MS, i - 28))
  }

  function TargetOf(p: Payload): Target {
    seq(JOINT_COUNT, j requires 0 <= j < JOINT_COUNT =>
      ReadS32(p[4 + 4 * j], p[5 + 4 * j], p[6 + 4 * j], p[7 + 4 * j]))
  }

  // The device's side: fields are checked in a fixed order, and only the first fault is reported.
  function ReadCsp(n: E.Node, p: Payload, tick: U32): E.Node
    requires p[2] == FLAG_RESET_APPLY ==>
               E.Enabled(n, E.ResetFrame(Point(p[0], TargetOf(p), ReadU16(p[28], p[29]), tick)))
  {
    var seen := E.Next(n, E.Received(p[0]));
    if p[1] != AXIS_VALID_MASK then E.Next(seen, E.Rejected(Some(p[0]), REJECT_INVALID_AXIS_MASK))
    else if p[2] != FLAG_APPLY && p[2] != FLAG_HOLD && p[2] != FLAG_RESET_APPLY then
      E.Next(seen, E.Rejected(Some(p[0]), REJECT_INVALID_FLAGS))
    else if p[3] != CSP_MODE then E.Next(seen, E.Rejected(Some(p[0]), REJECT_INVALID_MODE))
    else if p[2] == FLAG_HOLD then E.Next(seen, E.HoldDemand(HOLD_REASON_EXPLICIT_0X180))
    else
      var point := Point(p[0], TargetOf(p), ReadU16(p[28], p[29]), tick);
      if point.validityMs == 0 then E.Next(seen, E.Rejected(Some(p[0]), REJECT_INVALID_VALIDITY))
      else if p[2] == FLAG_RESET_APPLY then E.Next(seen, E.ResetFrame(point))
      else
        var result := Push(seen.dev, point).1;
        var pushed := E.Next(seen, E.ApplyFrame(point));
        if result.PushOk? then pushed else E.Next(pushed, E.Rejected(Some(p[0]), L.RejectReason(result)))
  }

  // A frame that fails its check is counted as rejected, without a sequence, and not read.
  function ReceiveCsp(n: E.Node, checked: Option<Payload>, tick: U32): E.Node
    requires checked.Some? && checked.value[2] == FLAG_RESET_APPLY ==>
               var p := checked.value;
               E.Enabled(n, E.ResetFrame(Point(p[0], TargetOf(p), ReadU16(p[28], p[29]), tick)))
  {
    match checked
    case None => E.Next(n, E.Rejected(None, REJECT_CRC_ERROR))
    case Some(p) => ReadCsp(n, p, tick)
  }

  lemma TargetByte(f: L.Frame, j: nat, n: nat)
    requires j < JOINT_COUNT && n < 4
    ensures EncodeCsp(f)[4 + 4 * j + n] == Byte(Bits(f.target[j]), n)
  {
    assert (4 * j + n) / 4 == j && (4 * j + n) % 4 == n;
    hide Byte, Bits;
  }

  lemma TargetSurvives(f: L.Frame)
    ensures TargetOf(EncodeCsp(f)) == f.target
  {
    var p := EncodeCsp(f);
    forall j | 0 <= j < JOINT_COUNT ensures TargetOf(p)[j] == f.target[j] {
      TargetByte(f, j, 0);
      TargetByte(f, j, 1);
      TargetByte(f, j, 2);
      TargetByte(f, j, 3);
      SignedRoundTrip(f.target[j]);
      hide EncodeCsp, Byte, Bits, ReadS32;
    }
    hide EncodeCsp;
  }

  // What the host encodes, once it has passed the check, the device reads as exactly that
  // frame: no field check rejects it, and the point is the one the host meant.
  lemma EncodedFrameIsRead(n: E.Node, f: L.Frame, tick: U32)
    requires f.kind.ResetFrame? ==> E.Enabled(n, E.ResetFrame(L.PointOf(f, tick)))
    ensures
      var p := EncodeCsp(f);
      && Point(p[0], TargetOf(p), ReadU16(p[28], p[29]), tick) == L.PointOf(f, tick)
      && ReceiveCsp(n, Some(p), tick) == L.ReadFrame(n, f, tick)
  {
    TargetSurvives(f);
    hide E.Next, E.Enabled, TargetOf, Push;
  }

  // The damage the check cannot see.
  predicate InTheHole(f: Frame, g: Frame, i: nat) {
    && i == FRAME_SIZE - 3
    && F.XorByte(f[i], g[i]) == F.HOLE_IN_PAYLOAD && F.XorByte(f[i + 1], g[i + 1]) == F.HOLE_IN_CHECK
  }

  // A frame damaged within two adjacent bytes is not read, but for that one pattern.
  lemma DamagedFrameIsRejected(p: Payload, g: Frame, i: nat)
    requires i + 1 < FRAME_SIZE && F.DifferOnlyAt(Sent(p), g, i)
    ensures Checked(g) == None <==> !InTheHole(Sent(p), g, i)
  {
    F.AppendedCrcChecks(WireBytes(p));
    F.CorruptionDetected(Sent(p), g, i);
    hide WireBytes, Values, F.AppendFrameCrc, F.CheckFrameCrc, F.XorByte;
  }

  // A command that fails a field check leaves the trajectory buffer's queue alone.
  lemma MalformedIsHarmless(n: E.Node, p: Payload, tick: U32)
    requires p[1] != AXIS_VALID_MASK || (p[2] != FLAG_APPLY && p[2] != FLAG_HOLD && p[2] != FLAG_RESET_APPLY)
             || p[3] != CSP_MODE || (p[2] != FLAG_HOLD && ReadU16(p[28], p[29]) == 0)
    requires p[2] == FLAG_RESET_APPLY ==>
               E.Enabled(n, E.ResetFrame(Point(p[0], TargetOf(p), ReadU16(p[28], p[29]), tick)))
    ensures
      var d, d' := n.dev, ReadCsp(n, p, tick).dev;
      && d'.queue == d.queue && d'.state == d.state && d'.expected == d.expected && d'.staged == d.staged
      && d'.seen.lastRejected == Some(p[0]) && d'.counts == d.counts.(rejected := Inc32(d.counts.rejected))
  {
    hide TargetOf;
  }

  // ---------------------------------------------------------------- the 0x204 status

  const MAX_REJECT_REASON := 0x0C
  const MAX_HOLD_REASON := 0x0D

  function Bit(on: bool): nat { if on then 1 else 0 }

  function StatusFlags(d: Device, safetyHold: bool, quickStop: bool): (flags: U8) {
    Bit(d.resetRequired) + 0x02 * Bit(d.expected.Some?) + 0x04 * Bit(d.seen.lastReceived.Some?) +
    0x08 * Bit(d.lastAccepted.Some?) + 0x10 * Bit(d.seen.lastExecuted.Some?) +
    0x20 * Bit(d.seen.lastRejected.Some?) + 0x40 * Bit(safetyHold) + 0x80 * Bit(quickStop)
  }

  predicate HasFlag(flags: U8, weight: nat)
    requires weight > 0
  {
    flags / weight % 2 == 1
  }

  function OrZero(x: Option<U8>): U8 { if x.Some? then x.value else 0 }

  function StateCode(state: State): U8 {
    match state
    case IDLE => 0
    case PREFILL => 1
    case RUNNING => 2
    case HOLD => 3
  }

  predicate Packable(d: Device) {
    |d.queue| <= CAPACITY && d.seen.rejectReason <= MAX_REJECT_REASON && d.holdReason <= MAX_HOLD_REASON
  }

  // The device's side. `sequence` is the status counter.
  function PackStatus(d: Device, safetyHold: bool, quickStop: bool, sequence: U8): Option<Payload> {
    if !Packable(d) then None
    else
      var p: Payload := seq(PAYLOAD_SIZE, i requires 0 <= i < PAYLOAD_SIZE =>
        if i == 0 then sequence
        else if i == 1 then PROTOCOL_VERSION
        else if i == 2 then StateCode(d.state)
        else if i == 3 then |d.queue|
        else if i == 4 then CAPACITY
        else if i == 5 then StatusFlags(d, safetyHold, quickStop)
        else if i == 6 then OrZero(d.seen.lastReceived)
        else if i == 7 then OrZero(d.lastAccepted)
        else if i == 8 then OrZero(d.seen.lastExecuted)
        else if i == 9 then OrZero(d.expected)
        else if i == 10 then OrZero(d.seen.lastRejected)
        else if i == 11 then d.seen.rejectReason
        else if i == 12 then d.holdReason
        else if i == 13 then PREFILL_COUNT
        else Byte(Counter(d, (i - 14) / 2), i % 2));
      Some(p)
  }

  // The eight 16-bit fields at the end, in order.
  function Counter(d: Device, k: nat): U16 {
    if k == 0 then Low16(d.generation)
    else if k == 1 then Low16(d.seen.lastExecutedCycle)
    else if k == 2 then Low16(d.counts.accepted)
    else if k == 3 then Low16(d.counts.executed)
    else if k == 4 then Low16(d.counts.rejected)
    else if k == 5 then Low16(d.counts.underrun)
    else if k == 6 then Low16(d.counts.overflow)
    else Low16(d.counts.expired)
  }

  function Field(p: Payload, k: nat): U16
    requires k < 8
  {
    ReadU16(p[14 + 2 * k], p[15 + 2 * k])
  }

  // The host's side.
  function DecodeStatus(p: Payload): Option<C.Status> {
    if p[1] != PROTOCOL_VERSION || p[2] > 3 || p[4] == 0 || p[3] > p[4] || p[13] == 0 || p[13] > p[4] ||
       p[11] > MAX_REJECT_REASON || p[12] > MAX_HOLD_REASON
    then None
    else
      var state := if p[2] == 0 then IDLE else if p[2] == 1 then PREFILL else if p[2] == 2 then RUNNING else HOLD;
      Some(C.Status(
        state, p[3], p[4], p[13],
        HasFlag(p[5], 0x01), HasFlag(p[5], 0x40), HasFlag(p[5], 0x80),
        if HasFlag(p[5], 0x02) then Some(p[9]) else None,
        if HasFlag(p[5], 0x08) then Some(p[7]) else None,
        Field(p, 0), Field(p, 2), Field(p, 3),
        C.Events(Field(p, 4), Field(p, 5), Field(p, 6), Field(p, 7))))
  }

  // A bit is what is left of the byte above the lower bits, taken modulo two.
  lemma BitAt(low: nat, bit: nat, high: nat)
    requires bit <= 1
    ensures (bit + 2 * high) % 2 == bit
    ensures low < 0x02 ==> (low + 0x02 * (bit + 2 * high)) / 0x02 == bit + 2 * high
    ensures low < 0x08 ==> (low + 0x08 * (bit + 2 * high)) / 0x08 == bit + 2 * high
    ensures low < 0x40 ==> (low + 0x40 * (bit + 2 * high)) / 0x40 == bit + 2 * high
    ensures low < 0x80 ==> (low + 0x80 * (bit + 2 * high)) / 0x80 == bit + 2 * high
  {
  }

  lemma BitsSurvive(flags: nat, b0: nat, b1: nat, b2: nat, b3: nat, b4: nat, b5: nat, b6: nat, b7: nat)
    requires b0 <= 1 && b1 <= 1 && b2 <= 1 && b3 <= 1 && b4 <= 1 && b5 <= 1 && b6 <= 1 && b7 <= 1
    requires flags == b0 + 0x02 * b1 + 0x04 * b2 + 0x08 * b3 + 0x10 * b4 + 0x20 * b5 + 0x40 * b6 + 0x80 * b7
    ensures flags % 2 == b0 && flags / 0x02 % 2 == b1 && flags / 0x08 % 2 == b3
    ensures flags / 0x40 % 2 == b6 && flags / 0x80 % 2 == b7
  {
    var above3 := b4 + 2 * b5 + 4 * b6 + 8 * b7;
    var above0 := b1 + 2 * b2 + 4 * b3 + 8 * above3;
    var below6 := b0 + 2 * b1 + 4 * b2 + 8 * b3 + 16 * b4 + 32 * b5;
    assert flags == b0 + 2 * above0;
    BitAt(0, b0, above0);
    BitAt(b0, b1, b2 + 2 * b3 + 4 * above3);
    BitAt(b0 + 2 * b1 + 4 * b2, b3, above3);
    BitAt(below6, b6, b7);
    BitAt(below6 + 64 * b6, b7, 0);
  }

  lemma FlagsSurvive(d: Device, safetyHold: bool, quickStop: bool)
    ensures
      var flags := StatusFlags(d, safetyHold, quickStop);
      && HasFlag(flags, 0x01) == d.resetRequired && HasFlag(flags, 0x02) == d.expected.Some?
      && HasFlag(flags, 0x08) == d.lastAccepted.Some?
      && HasFlag(flags, 0x40) == safetyHold && HasFlag(flags, 0x80) == quickStop
  {
    BitsSurvive(StatusFlags(d, safetyHold, quickStop),
                Bit(d.resetRequired), Bit(d.expected.Some?), Bit(d.seen.lastReceived.Some?), Bit(d.lastAccepted.Some?),
                Bit(d.seen.lastExecuted.Some?), Bit(d.seen.lastRejected.Some?), Bit(safetyHold), Bit(quickStop));
  }

  lemma FieldsSurvive(d: Device, safetyHold: bool, quickStop: bool, sequence: U8, k: nat)
    requires Packable(d) && k < 8
    ensures Field(PackStatus(d, safetyHold, quickStop, sequence).value, k) == Counter(d, k)
  {
    WordRoundTrip(Counter(d, k));
    assert (14 + 2 * k - 14) / 2 == k && (15 + 2 * k - 14) / 2 == k;
    assert (14 + 2 * k) % 2 == 0 && (15 + 2 * k) % 2 == 1;
    hide Counter, StatusFlags, Byte;
  }

  lemma DecodedStatus(p: Payload, d: Device, safetyHold: bool, quickStop: bool)
    requires Packable(d)
    requires p[1] == PROTOCOL_VERSION && p[2] == StateCode(d.state) && p[3] == |d.queue| && p[4] == CAPACITY
    requires p[5] == StatusFlags(d, safetyHold, quickStop)
    requires p[7] == OrZero(d.lastAccepted) && p[9] == OrZero(d.expected)
    requires p[11] == d.seen.rejectReason && p[12] == d.holdReason && p[13] == PREFILL_COUNT
    requires forall k :: 0 <= k < 8 ==> Field(p, k) == Counter(d, k)
    ensures DecodeStatus(p) == Some(L.StatusOf(d, safetyHold, quickStop))
  {
    FlagsSurvive(d, safetyHold, quickStop);
    hide StatusFlags, HasFlag, Field;
  }

  // Every status the device can pack is decoded to the device's state; a status it
  // cannot pack is one whose reason codes are out of range.
  lemma StatusRoundTrip(d: Device, safetyHold: bool, quickStop: bool, sequence: U8)
    requires |d.queue| <= CAPACITY
    ensures PackStatus(d, safetyHold, quickStop, sequence).Some? <==>
              d.seen.rejectReason <= MAX_REJECT_REASON && d.holdReason <= MAX_HOLD_REASON
    ensures PackStatus(d, safetyHold, quickStop, sequence).Some? ==>
              DecodeStatus(PackStatus(d, safetyHold, quickStop, sequence).value) ==
              Some(L.StatusOf(d, safetyHold, quickStop))
  {
    if Packable(d) {
      var p := PackStatus(d, safetyHold, quickStop, sequence).value;
      forall k | 0 <= k < 8 ensures Field(p, k) == Counter(d, k) {
        FieldsSurvive(d, safetyHold, quickStop, sequence, k);
      }
      hide StatusFlags, Field, DecodeStatus, L.StatusOf, Byte;
      DecodedStatus(p, d, safetyHold, quickStop);
    }
  }

  // The host refuses a status exactly when it cannot come from such a device, so what it goes
  // by is always sane.
  lemma RefusedStatus(p: Payload)
    ensures DecodeStatus(p).Some? <==>
            && p[1] == 2 && p[2] <= 3 && 0 < p[4] && p[3] <= p[4] && 0 < p[13] <= p[4] && p[11] <= 0x0C && p[12] <= 0x0D
    ensures DecodeStatus(p).Some? ==>
              var status := DecodeStatus(p).value;
              status.depth <= status.capacity && 0 < status.prefill <= status.capacity
  {
    hide Field, HasFlag;
  }

  // What is only observed survives too: the counter, the reasons and the executed cycle.
  lemma ObservationsSurvive(d: Device, safetyHold: bool, quickStop: bool, sequence: U8)
    requires Packable(d)
    ensures
      var p := PackStatus(d, safetyHold, quickStop, sequence).value;
      && p[0] == sequence && p[11] == d.seen.rejectReason && p[12] == d.holdReason
      && Field(p, 1) == Low16(d.seen.lastExecutedCycle)
      && (d.seen.lastReceived.Some? ==> p[6] == d.seen.lastReceived.value)
      && (d.seen.lastExecuted.Some? ==> p[8] == d.seen.lastExecuted.value)
      && (d.seen.lastRejected.Some? ==> p[10] == d.seen.lastRejected.value)
  {
    FieldsSurvive(d, safetyHold, quickStop, sequence, 1);
    var p := PackStatus(d, safetyHold, quickStop, sequence).value;
    assert p[6] == OrZero(d.seen.lastReceived) && p[8] == OrZero(d.seen.lastExecuted);
    assert p[10] == OrZero(d.seen.lastRejected);
    hide StatusFlags, Field, Byte;
  }
}
