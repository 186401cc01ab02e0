// The CAN receive queue: sixteen slots between the receive interrupt and one task, with
// free-running 32-bit indices and no lock. The interrupt may strike between any two of
// the consumer's steps: look at the write index, copy the slot, release it.
module RxQueue {
  import opened Words

  const DEPTH := 16

  // BSP_CAN_Frame, of which only identity matters here.
  type Frame = int

  datatype Consumer = Idle | Seen(index: U32) | Copied(from: U32, frame: Frame)

  datatype Ring = Ring(
    slots: seq<Frame>, writeIndex: U32, readIndex: U32, dropped: nat, consumer: Consumer,
    // history: frames queued and frames handed out, in order
    queued: seq<Frame>, delivered: seq<Frame>)

  datatype Event = Interrupt(arrived: Frame) | Look | Copy | Release

  // index & (DEPTH - 1)
  function SlotOf(index: U32): nat { index % DEPTH }

  function Pending(r: Ring): U32 { Sub32(r.writeIndex, r.readIndex) }

  function Push(r: Ring, frame: Frame): Ring
    requires |r.slots| == DEPTH
  {
    if Pending(r) >= DEPTH then r.(dropped := r.dropped + 1)
    else r.(slots := r.slots[SlotOf(r.writeIndex) := frame], writeIndex := Inc32(r.writeIndex),
            queued := r.queued + [frame])
  }

  predicate Enabled(r: Ring, e: Event) {
    match e
    case Interrupt(_) => true
    case Look => r.consumer.Idle?
    case Copy => r.consumer.Seen?
    case Release => r.consumer.Copied?
  }

  function Next(r: Ring, e: Event): Ring
    requires |r.slots| == DEPTH && Enabled(r, e)
  {
    match e
    case Interrupt(frame) => Push(r, frame)
    case Look => if r.readIndex == r.writeIndex then r else r.(consumer := Seen(r.readIndex))
    case Copy => r.(consumer := Copied(r.consumer.index, r.slots[SlotOf(r.consumer.index)]))
    case Release =>
      r.(readIndex := Inc32(r.consumer.from), consumer := Idle, delivered := r.delivered + [r.consumer.frame])
  }

  function Start(slots: seq<Frame>): Ring
    requires |slots| == DEPTH
  {
    Ring(slots, 0, 0, 0, Idle, [], [])
  }

  predicate Run(states: seq<Ring>, events: seq<Event>) {
    && |states| == |events| + 1
    && |states[0].slots| == DEPTH && states[0] == Start(states[0].slots)
    && forall i :: 0 <= i < |events| ==>
         && |states[i].slots| == DEPTH && Enabled(states[i], events[i])
         && states[i + 1] == Next(states[i], events[i])
  }

  const INDEX_RANGE := 0x1_0000_0000

  // The ring is a FIFO of at most sixteen frames: the indices count what was queued and
  // delivered, modulo 2^32, and each waiting frame is in its slot.
  predicate Inv(r: Ring) {
    && |r.slots| == DEPTH
    && |r.delivered| <= |r.queued| <= |r.delivered| + DEPTH
    && r.delivered == r.queued[..|r.delivered|]
    && r.writeIndex == |r.queued| % INDEX_RANGE
    && r.readIndex == |r.delivered| % INDEX_RANGE
    && (forall i :: |r.delivered| <= i < |r.queued| ==> r.slots[i % DEPTH] == r.queued[i])
    && (!r.consumer.Idle? ==> |r.delivered| < |r.queued|)
    && (r.consumer.Seen? ==> r.consumer.index == r.readIndex)
    && (r.consumer.Copied? ==> r.consumer.from == r.readIndex && r.consumer.frame == r.queued[|r.delivered|])
  }

  lemma IndexSlot(n: nat)
    ensures SlotOf(n % INDEX_RANGE) == n % DEPTH
    ensures Inc32(n % INDEX_RANGE) == (n + 1) % INDEX_RANGE
  {
  }

  lemma PendingIsExact(r: Ring)
    requires Inv(r)
    ensures Pending(r) == |r.queued| - |r.delivered|
  {
  }

  lemma DistinctSlots(i: nat, j: nat)
    requires i < j < i + DEPTH
    ensures i % DEPTH != j % DEPTH
  {
  }

  lemma PushKeepsInv(r: Ring, frame: Frame)
    requires Inv(r)
    ensures Inv(Push(r, frame))
  {
    PendingIsExact(r);
    IndexSlot(|r.queued|);
    var r' := Push(r, frame);
    if Pending(r) < DEPTH {
      forall i | |r'.delivered| <= i < |r'.queued| ensures r'.slots[i % DEPTH] == r'.queued[i] {
        if i < |r.queued| {
          DistinctSlots(i, |r.queued|);
        }
      }
    }
  }

  lemma ConsumerKeepsInv(r: Ring, e: Event)
    requires Inv(r) && Enabled(r, e) && !e.Interrupt?
    ensures Inv(Next(r, e))
  {
    PendingIsExact(r);
    IndexSlot(|r.delivered|);
    if e.Release? {
      assert r.queued[..|r.delivered| + 1] == r.queued[..|r.delivered|] + [r.queued[|r.delivered|]];
    }
  }

  lemma {:induction false} RunKeepsInv(states: seq<Ring>, events: seq<Event>, k: nat)
    requires Run(states, events) && k < |states|
    ensures Inv(states[k])
    decreases k
  {
    if k > 0 {
      RunKeepsInv(states, events, k - 1);
      hide Inv, Next, Enabled;
      var r, e := states[k - 1], events[k - 1];
      assert Enabled(r, e) && states[k] == Next(r, e);
      if e.Interrupt? {
        PushKeepsInv(r, e.arrived);
        assert Next(r, e) == Push(r, e.arrived) by { NextOfInterrupt(r, e); }
      } else {
        ConsumerKeepsInv(r, e);
      }
    }
  }

  lemma NextOfInterrupt(r: Ring, e: Event)
    requires |r.slots| == DEPTH && e.Interrupt?
    ensures Enabled(r, e) && Next(r, e) == Push(r, e.arrived)
  {
  }

  // Frames come out in the order they went in, none repeated, lost or altered once
  // queued; a frame is dropped exactly when sixteen wait.
  lemma DeliversInOrder(states: seq<Ring>, events: seq<Event>, k: nat)
    requires Run(states, events) && k < |states|
    ensures
      var r := states[k];
      && r.delivered <= r.queued
      && Pending(r) == |r.queued| - |r.delivered| <= DEPTH
    ensures k < |events| && events[k].Interrupt? ==>
      var r, r', f := states[k], states[k + 1], events[k].arrived;
      if |r.queued| - |r.delivered| < DEPTH then r'.queued == r.queued + [f] && r'.dropped == r.dropped
      else r'.queued == r.queued && r'.slots == r.slots && r'.dropped == r.dropped + 1
  {
    RunKeepsInv(states, events, k);
    PendingIsExact(states[k]);
    if k < |events| && events[k].Interrupt? {
      assert states[k + 1] == Next(states[k], events[k]);
    }
  }

  // The interrupt never writes the slot the consumer is about to copy.
  lemma CopyIsUndisturbed(states: seq<Ring>, events: seq<Event>, k: nat)
    requires Run(states, events) && k < |events| && events[k].Interrupt? && states[k].consumer.Seen?
    ensures
      var slot := SlotOf(states[k].consumer.index);
      states[k + 1].slots[slot] == states[k].slots[slot]
  {
    RunKeepsInv(states, events, k);
    var r := states[k];
    assert states[k + 1] == Next(r, events[k]);
    PendingIsExact(r);
    IndexSlot(|r.queued|);
    IndexSlot(|r.delivered|);
    if Pending(r) < DEPTH {
      DistinctSlots(|r.delivered|, |r.queued|);
    }
  }

  // Each step of the consumer, whatever the interrupt did before it: a look finds a frame if
  // and only if one waits, the copy is the oldest waiting frame, and its release hands it out.
  lemma ConsumerRule(states: seq<Ring>, events: seq<Event>, k: nat)
    requires Run(states, events) && k < |events| && !events[k].Interrupt?
    ensures
      var r, r' := states[k], states[k + 1];
      var waits := |r.delivered| < |r.queued|;
      && r'.queued == r.queued && r'.slots == r.slots && r'.dropped == r.dropped
      && (events[k].Look? ==>
            r'.delivered == r.delivered && (r'.consumer.Seen? <==> waits) && (r'.consumer.Idle? <==> !waits))
      && (events[k].Copy? ==>
            waits && r'.delivered == r.delivered && r'.consumer.Copied? && r'.consumer.frame == r.queued[|r.delivered|])
      && (events[k].Release? ==>
            waits && r'.consumer.Idle? && r'.delivered == r.delivered + [r.queued[|r.delivered|]])
  {
    RunKeepsInv(states, events, k);
    PendingIsExact(states[k]);
    assert Enabled(states[k], events[k]) && states[k + 1] == Next(states[k], events[k]);
    hide Run;
  }

  // ------------------------------------------------------------------- the object

  class ReceiveQueue {
    const slots: array<Frame>
    var writeIndex: U32
    var readIndex: U32
    var dropped: nat
    ghost var queued: seq<Frame>
    ghost var delivered: seq<Frame>

    // The queue between two calls of its consumer.
    ghost function Abs(): Ring
      reads this, slots
    {
      Ring(slots[..], writeIndex, readIndex, dropped, Idle, queued, delivered)
    }

    ghost predicate Valid()
      reads this, slots
    {
      Inv(Abs())
    }

    constructor ()
      ensures Valid() && fresh(slots) && Abs() == Start(slots[..])
    {
      slots := new Frame[DEPTH];
      writeIndex, readIndex, dropped := 0, 0, 0;
      queued, delivered := [], [];
    }

    method PushFromIsr(frame: Frame) returns (taken: bool)
      requires Valid()
      modifies this`writeIndex, this`dropped, this`queued, slots
      ensures Valid() && Abs() == Push(old(Abs()), frame)
      ensures taken <==> old(|queued| - |delivered|) < DEPTH
    {
      PendingIsExact(Abs());
      PushKeepsInv(Abs(), frame);
      var index := writeIndex;
      if Sub32(index, readIndex) >= DEPTH {
        dropped := dropped + 1;
        return false;
      }
      slots[SlotOf(index)] := frame;
      writeIndex := Inc32(index);
      queued := queued + [frame];
      return true;
    }

    method TryReceive() returns (frame: Option<Frame>)
      requires Valid()
      modifies this`readIndex, this`delivered
      ensures Valid()
      ensures if old(|queued| == |delivered|) then frame == None && Abs() == old(Abs())
              else && frame == Some(old(queued[|delivered|]))
                   && Abs() == Next(Next(Next(old(Abs()), Look), Copy), Release)
    {
      PendingIsExact(Abs());
      IndexSlot(|delivered|);
      var index := readIndex;
      if index == writeIndex {
        return None;
      }
      frame := Some(slots[SlotOf(index)]);
      readIndex := Inc32(index);
      ghost var next := queued[|delivered|];
      assert queued[..|delivered| + 1] == delivered + [next];
      delivered := delivered + [next];
    }

    method GetRxPending() returns (pending: U32)
      requires Valid()
      ensures pending == |queued| - |delivered|
    {
      PendingIsExact(Abs());
      pending := Sub32(writeIndex, readIndex);
    }
  }
}
