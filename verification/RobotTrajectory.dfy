// The device's trajectory buffer: a 15-slot ring with a prefill phase, a short
// empty-queue grace period, a latched hold reason and a stage/confirm handshake
// with the EtherCAT task.
//
// `Trajectory` is the ring as the firmware keeps it (array, head, tail, count and
// flags updated in place). `Device` is what the rest of the project reasons about:
// the same flags with the ring replaced by the queue it stands for. Each method of
// the class is proved to perform the corresponding function on `Device`.
module RobotTrajectory {
  import opened Words

  const CAPACITY := 15
  const PREFILL_COUNT := 8
  const EMPTY_GRACE_CYCLES := 3

  const HOLD_REASON_NONE: U8 := 0x00
  const HOLD_REASON_EXPLICIT_0X180: U8 := 0x01
  const HOLD_REASON_QUEUE_UNDERRUN: U8 := 0x04
  const HOLD_REASON_QUEUE_OVERFLOW: U8 := 0x05
  const HOLD_REASON_SEQUENCE_ERROR: U8 := 0x06
  const HOLD_REASON_POINT_EXPIRED: U8 := 0x07
  const HOLD_REASON_ETHERCAT_NOT_OP: U8 := 0x0A
  const HOLD_REASON_INTERNAL_ERROR: U8 := 0x0D

  const JOINT_COUNT := 6

  // Six raw joint targets, in logical Joint1..Joint6 order.
  type Target = t: seq<I32> | |t| == JOINT_COUNT witness [0, 0, 0, 0, 0, 0]

  datatype Point = Point(sequence: U8, target: Target, validityMs: U16, receivedTick: U32)

  datatype State = IDLE | PREFILL | RUNNING | HOLD

  datatype PushResult = PushOk | PushResetRequired | PushSequenceError | PushFull

  datatype TakeResult = TakeWait | TakePoint(point: Point, generation: U32) | TakeGrace | TakeHold

  // A point written into the next output image and waiting for its exchange.
  datatype Staged = Staged(sequence: U8, generation: U32)

  // Counters the 0x204 status reports; each wraps at 32 bits.
  datatype Counts = Counts(
    accepted: U32, executed: U32, rejected: U32, underrun: U32, graceRecovery: U32, overflow: U32, expired: U32)

  // Observation data: copied into the status, never read by the ring's own decisions.
  datatype Observed = Observed(
    lastReceived: Option<U8>, lastExecuted: Option<U8>, lastExecutedCycle: U32,
    lastRejected: Option<U8>, rejectReason: U8)

  datatype Device = Device(
    state: State,
    resetRequired: bool,
    expected: Option<U8>,
    queue: seq<Point>,
    graceCycles: nat,
    lastAccepted: Option<U8>,
    staged: Option<Staged>,
    holdReason: U8,
    generation: U32,
    seen: Observed,
    counts: Counts)

  // ---------------------------------------------------------------- operations

  function Init(): Device {
    Device(IDLE, true, None, [], 0, None, None, HOLD_REASON_NONE, 0,
           Observed(None, None, 0, None, 0), Counts(0, 0, 0, 0, 0, 0, 0))
  }

  // Points are accepted only between a RESET and the next hold.
  predicate Active(d: Device) {
    !d.resetRequired && d.expected != None && (d.state == PREFILL || d.state == RUNNING)
  }

  function Latch(held: U8, reason: U8): U8 {
    if held == HOLD_REASON_NONE then reason else held
  }

  // The queue, the sequence and any staged point are dropped together.
  function RequireReset(d: Device, reason: U8): Device {
    Device(HOLD, true, None, [], 0, d.lastAccepted, None, Latch(d.holdReason, reason), d.generation,
           d.seen, d.counts)
  }

  function RecordReceived(d: Device, sequence: U8): Device {
    d.(seen := d.seen.(lastReceived := Some(sequence)))
  }

  function RecordRejected(d: Device, sequence: Option<U8>, reason: U8): Device {
    d.(seen := d.seen.(lastRejected := sequence, rejectReason := reason),
       counts := d.counts.(rejected := Inc32(d.counts.rejected)))
  }

  function ResetAndPush(d: Device, p: Point): Device {
    Device(PREFILL, false, Some(Inc8(p.sequence)), [p], 0, Some(p.sequence), None, HOLD_REASON_NONE,
           Inc32(d.generation), Observed(d.seen.lastReceived, None, 0, None, 0),
           d.counts.(accepted := Inc32(d.counts.accepted)))
  }

  function Push(d: Device, p: Point): (Device, PushResult) {
    if !Active(d) then (d, PushResetRequired)
    else if p.sequence != d.expected.value then
      (RequireReset(d, HOLD_REASON_SEQUENCE_ERROR), PushSequenceError)
    else if |d.queue| >= CAPACITY then
      (RequireReset(d.(counts := d.counts.(overflow := Inc32(d.counts.overflow))), HOLD_REASON_QUEUE_OVERFLOW),
       PushFull)
    else
      var recovering := d.state == RUNNING && d.queue == [] && d.graceCycles != 0;
      (d.(queue := d.queue + [p], expected := Some(Inc8(p.sequence)),
          graceCycles := if recovering then 0 else d.graceCycles,
          lastAccepted := Some(p.sequence),
          counts := d.counts.(accepted := Inc32(d.counts.accepted),
                              graceRecovery := if recovering then Inc32(d.counts.graceRecovery)
                                               else d.counts.graceRecovery)), PushOk)
  }

  function Take(d: Device, tick: U32): (Device, TakeResult) {
    if d.resetRequired || d.state == HOLD then (d, TakeHold)
    else
      var run := if d.state == PREFILL && |d.queue| >= PREFILL_COUNT
                 then d.(state := RUNNING, graceCycles := 0) else d;
      if run.state != RUNNING then (run, TakeWait)
      else if run.queue == [] then TakeNothing(run)
      else TakeFirst(run, tick)
  }

  // An empty queue is tolerated for three cycles; the fourth is an underrun.
  function TakeNothing(d: Device): (Device, TakeResult) {
    if d.graceCycles < EMPTY_GRACE_CYCLES then (d.(graceCycles := d.graceCycles + 1), TakeGrace)
    else
      (RequireReset(d.(counts := d.counts.(underrun := Inc32(d.counts.underrun))), HOLD_REASON_QUEUE_UNDERRUN),
       TakeHold)
  }

  function TakeFirst(d: Device, tick: U32): (Device, TakeResult)
    requires d.queue != []
  {
    if Sub32(tick, d.queue[0].receivedTick) >= d.queue[0].validityMs then
      (RequireReset(d.(counts := d.counts.(expired := Inc32(d.counts.expired))), HOLD_REASON_POINT_EXPIRED),
       TakeHold)
    else (d.(graceCycles := 0, queue := d.queue[1..]), TakePoint(d.queue[0], d.generation))
  }

  function Stage(d: Device, sequence: U8, generation: U32): (Device, bool) {
    if d.staged == None && generation == d.generation && !d.resetRequired && d.state == RUNNING
    then (d.(staged := Some(Staged(sequence, generation))), true)
    else (d, false)
  }

  function Confirm(d: Device, cycle: U32): (Device, bool) {
    if d.staged == None then (d, false)
    else if d.staged.value.generation == d.generation && !d.resetRequired && d.state == RUNNING then
      (d.(seen := d.seen.(lastExecuted := Some(d.staged.value.sequence), lastExecutedCycle := cycle),
          counts := d.counts.(executed := Inc32(d.counts.executed)), staged := None), true)
    else (d.(staged := None), false)
  }

  // ------------------------------------------------------------ what always holds

  // Reachable shape of the context: a required reset means there is nothing queued
  // or staged, and the sequence is valid exactly while the buffer is active.
  predicate WellFormed(d: Device) {
    && |d.queue| <= CAPACITY
    && d.graceCycles <= EMPTY_GRACE_CYCLES
    && (d.resetRequired <==> d.state == IDLE || d.state == HOLD)
    && (d.resetRequired <==> d.expected == None)
    && (d.resetRequired ==> d.queue == [] && d.staged == None && d.graceCycles == 0)
    && (d.staged != None ==> d.state == RUNNING && d.staged.value.generation == d.generation)
    && (d.state == PREFILL ==> d.graceCycles == 0 && d.queue != [] && d.staged == None)
    && (d.lastAccepted == None ==> d.resetRequired)
    && (!d.resetRequired ==> d.lastAccepted != None && d.expected.value == Inc8(d.lastAccepted.value))
  }

  // The queue carries consecutive sequence numbers that end just before `expected`.
  predicate Consecutive(d: Device) {
    d.expected != None ==>
      forall i :: 0 <= i < |d.queue| ==>
        d.queue[i].sequence == (d.expected.value - |d.queue| + i) % 0x100
  }

  lemma PushKeepsShape(d: Device, p: Point)
    requires WellFormed(d) && Consecutive(d)
    ensures WellFormed(Push(d, p).0) && Consecutive(Push(d, p).0)
  {
    var e := Push(d, p).0;
    if Push(d, p).1 == PushOk {
      forall i | 0 <= i < |e.queue|
        ensures e.queue[i].sequence == (e.expected.value - |e.queue| + i) % 0x100
      {
        if i < |d.queue| {
          assert e.queue[i] == d.queue[i];
        }
      }
    }
  }

  lemma TakeKeepsShape(d: Device, tick: U32)
    requires WellFormed(d) && Consecutive(d)
    ensures WellFormed(Take(d, tick).0) && Consecutive(Take(d, tick).0)
  {
    var t := Take(d, tick).0;
    if Take(d, tick).1.TakePoint? {
      forall i | 0 <= i < |t.queue|
        ensures t.queue[i].sequence == (t.expected.value - |t.queue| + i) % 0x100
      {
        assert t.queue[i] == d.queue[i + 1];
      }
    }
  }

  lemma OperationsKeepShape(d: Device, reason: U8, p: Point, sequence: U8, generation: U32, cycle: U32)
    requires WellFormed(d) && Consecutive(d)
    ensures WellFormed(RequireReset(d, reason)) && Consecutive(RequireReset(d, reason))
    ensures WellFormed(ResetAndPush(d, p)) && Consecutive(ResetAndPush(d, p))
    ensures WellFormed(Stage(d, sequence, generation).0) && Consecutive(Stage(d, sequence, generation).0)
    ensures WellFormed(Confirm(d, cycle).0) && Consecutive(Confirm(d, cycle).0)
  {
  }

  // The first reason latched since the last RESET is the one that is reported:
  // every operation except a RESET leaves a non-zero reason alone.
  lemma FirstHoldReasonLasts(d: Device, reason: U8, p: Point, tick: U32, sequence: U8, gen: U32, cycle: U32)
    requires d.holdReason != HOLD_REASON_NONE
    ensures RequireReset(d, reason).holdReason == d.holdReason
    ensures Push(d, p).0.holdReason == d.holdReason
    ensures Take(d, tick).0.holdReason == d.holdReason
    ensures Stage(d, sequence, gen).0.holdReason == d.holdReason
    ensures Confirm(d, cycle).0.holdReason == d.holdReason
    ensures ResetAndPush(d, p).holdReason == HOLD_REASON_NONE
  {
  }

  // ------------------------------------------------------------------- the ring

  class Trajectory {
    var state: State
    var resetRequired: bool
    var expectedSequence: Option<U8>
    var head: nat
    var tail: nat
    var count: nat
    var emptyGraceCycles: nat
    const points: array<Point>
    var lastAccepted: Option<U8>
    var staged: Option<Staged>
    var holdReason: U8
    var generation: U32
    var seen: Observed
    var counts: Counts

    ghost predicate Valid()
      reads this`head, this`tail, this`count
    {
      && points.Length == CAPACITY
      && head < CAPACITY
      && count <= CAPACITY
      && tail == (if head + count < CAPACITY then head + count else head + count - CAPACITY)
    }

    // The queued points, oldest first.
    ghost function Queue(): (q: seq<Point>)
      reads this`head, this`tail, this`count, points
      requires Valid()
      ensures |q| == count
      ensures count > 0 ==> q[0] == points[head]
    {
      if head + count <= CAPACITY then points[head..head + count]
      else points[head..] + points[..head + count - CAPACITY]
    }

    ghost function Abs(): Device
      reads this, points
      requires Valid()
    {
      Device(state, resetRequired, expectedSequence, Queue(), emptyGraceCycles,
             lastAccepted, staged, holdReason, generation, seen, counts)
    }

    constructor Create(blank: Point)
      ensures Valid() && fresh(points)
      ensures Abs() == Init()
      ensures state == IDLE && resetRequired && expectedSequence == None && count == 0 && emptyGraceCycles == 0
      ensures lastAccepted == None && staged == None && holdReason == 0 && generation == 0
      ensures seen == Observed(None, None, 0, None, 0) && counts == Counts(0, 0, 0, 0, 0, 0, 0)
    {
      points := new Point[CAPACITY](_ => blank);
      state, resetRequired, expectedSequence := IDLE, true, None;
      head, tail, count, emptyGraceCycles := 0, 0, 0, 0;
      lastAccepted, staged, holdReason, generation := None, None, HOLD_REASON_NONE, 0;
      seen := Observed(None, None, 0, None, 0);
      counts := Counts(0, 0, 0, 0, 0, 0, 0);
    }

    method DropQueue()
      requires Valid()
      modifies this`head, this`tail, this`count, this`emptyGraceCycles
      ensures Valid() && Queue() == [] && emptyGraceCycles == 0
    {
      head, tail, count, emptyGraceCycles := 0, 0, 0, 0;
    }

    method RequireResetWithReason(reason: U8)
      requires Valid()
      modifies this
      ensures Valid() && Abs() == RequireReset(old(Abs()), reason)
    {
      hide Queue;
      if holdReason == HOLD_REASON_NONE && reason != HOLD_REASON_NONE {
        holdReason := reason;
      }
      DropQueue();
      state, resetRequired, expectedSequence := HOLD, true, None;
      staged := None;
    }

    method NoteReceived(sequence: U8)
      requires Valid()
      modifies this`seen
      ensures Valid() && Abs() == RecordReceived(old(Abs()), sequence)
    {
      seen := seen.(lastReceived := Some(sequence));
    }

    method NoteRejected(sequence: Option<U8>, reason: U8)
      requires Valid()
      modifies this`seen, this`counts
      ensures Valid() && Abs() == RecordRejected(old(Abs()), sequence, reason)
    {
      seen := seen.(lastRejected := sequence, rejectReason := reason);
      counts := counts.(rejected := Inc32(counts.rejected));
    }

    // The ring write of Push: the slot at tail, and tail moved on.
    method Append(point: Point)
      requires Valid() && count < CAPACITY
      modifies this`tail, this`count, points
      ensures Valid() && Queue() == old(Queue()) + [point]
    {
      ghost var was := Queue();
      points[tail] := point;
      tail := tail + 1;
      if tail >= CAPACITY {
        tail := 0;
      }
      count := count + 1;
      assert Queue()[..|was|] == was && Queue()[|was|] == point;
    }

    method Accept(point: Point)
      requires Valid() && count < CAPACITY
      modifies this`tail, this`count, this`expectedSequence, this`lastAccepted, this`counts, points
      ensures Valid() && Queue() == old(Queue()) + [point]
      ensures expectedSequence == Some(Inc8(point.sequence)) && lastAccepted == Some(point.sequence)
      ensures counts == old(counts).(accepted := Inc32(old(counts).accepted))
    {
      Append(point);
      expectedSequence := Some(Inc8(point.sequence));
      lastAccepted := Some(point.sequence);
      counts := counts.(accepted := Inc32(counts.accepted));
    }

    method ResetAndEnqueue(point: Point)
      requires Valid()
      modifies this, points
      ensures Valid() && Abs() == ResetAndPush(old(Abs()), point)
    {
      hide Queue;
      DropQueue();
      Accept(point);
      resetRequired := false;
      generation := Inc32(generation);
      holdReason, staged, state := HOLD_REASON_NONE, None, PREFILL;
      seen := Observed(seen.lastReceived, None, 0, None, 0);
    }

    method Enqueue(point: Point) returns (result: PushResult)
      requires Valid()
      modifies this, points
      ensures Valid() && (Abs(), result) == Push(old(Abs()), point)
    {
      if resetRequired || expectedSequence == None || (state != PREFILL && state != RUNNING) {
        result := PushResetRequired;
      } else if point.sequence != expectedSequence.value {
        RequireResetWithReason(HOLD_REASON_SEQUENCE_ERROR);
        result := PushSequenceError;
      } else if count >= CAPACITY {
        counts := counts.(overflow := Inc32(counts.overflow));
        RequireResetWithReason(HOLD_REASON_QUEUE_OVERFLOW);
        result := PushFull;
      } else {
        if state == RUNNING && count == 0 && emptyGraceCycles != 0 {
          counts := counts.(graceRecovery := Inc32(counts.graceRecovery));
          emptyGraceCycles := 0;
        }
        Accept(point);
        result := PushOk;
      }
    }

    // The ring read of Take: the slot at head, and head moved on.
    method RemoveFirst()
      requires Valid() && count > 0
      modifies this`head, this`count
      ensures Valid() && Queue() == old(Queue())[1..]
    {
      head := head + 1;
      if head >= CAPACITY {
        head := 0;
      }
      count := count - 1;
    }

    method DequeueNothing() returns (result: TakeResult)
      requires Valid() && count == 0
      modifies this
      ensures Valid() && (Abs(), result) == TakeNothing(old(Abs()))
    {
      if emptyGraceCycles < EMPTY_GRACE_CYCLES {
        emptyGraceCycles := emptyGraceCycles + 1;
        result := TakeGrace;
      } else {
        counts := counts.(underrun := Inc32(counts.underrun));
        RequireResetWithReason(HOLD_REASON_QUEUE_UNDERRUN);
        result := TakeHold;
      }
    }

    method DequeueFirst(currentTick: U32) returns (result: TakeResult)
      requires Valid() && count > 0
      modifies this
      ensures Valid() && (Abs(), result) == TakeFirst(old(Abs()), currentTick)
    {
      emptyGraceCycles := 0;
      var queued := points[head];
      assert queued == Queue()[0];
      if Sub32(currentTick, queued.receivedTick) >= queued.validityMs {
        counts := counts.(expired := Inc32(counts.expired));
        RequireResetWithReason(HOLD_REASON_POINT_EXPIRED);
        result := TakeHold;
      } else {
        RemoveFirst();
        result := TakePoint(queued, generation);
      }
    }

    method Dequeue(currentTick: U32) returns (result: TakeResult)
      requires Valid()
      modifies this
      ensures Valid() && (Abs(), result) == Take(old(Abs()), currentTick)
    {
      if resetRequired || state == HOLD {
        return TakeHold;
      }
      if state == PREFILL && count >= PREFILL_COUNT {
        state := RUNNING;
        emptyGraceCycles := 0;
      }
      if state != RUNNING {
        result := TakeWait;
      } else if count == 0 {
        result := DequeueNothing();
      } else {
        result := DequeueFirst(currentTick);
      }
    }

    method StageExecution(sequence: U8, pointGeneration: U32) returns (accepted: bool)
      requires Valid()
      modifies this`staged
      ensures Valid() && (Abs(), accepted) == Stage(old(Abs()), sequence, pointGeneration)
    {
      accepted := false;
      if staged == None && pointGeneration == generation && !resetRequired && state == RUNNING {
        staged := Some(Staged(sequence, pointGeneration));
        accepted := true;
      }
    }

    method ConfirmExecution(ecatCycle: U32) returns (confirmed: bool)
      requires Valid()
      modifies this
      ensures Valid() && (Abs(), confirmed) == Confirm(old(Abs()), ecatCycle)
    {
      confirmed := false;
      if staged != None {
        if staged.value.generation == generation && !resetRequired && state == RUNNING {
          seen := seen.(lastExecuted := Some(staged.value.sequence), lastExecutedCycle := ecatCycle);
          counts := counts.(executed := Inc32(counts.executed));
          confirmed := true;
        }
        staged := None;
      }
    }
  }
}
