// The two-buffer snapshot of the drives' inputs: one task publishes, another reads, and
// neither locks. A set (three TxPDOs, the report number and the drive state) is copied byte
// by byte, and the other side may run between any two bytes.
//
// `published`, `consumed` and the reader's `sequence` are unbounded shadows of the 32-bit
// sequence numbers: both sides compare them, and choose buffers by them, modulo 2^32.
module Snapshot {
  import opened Words

  // Three packed TxPDOs of 42 bytes and two 32-bit words.
  const SET_SIZE := 3 * 42 + 4 + 4
  const RETRIES := 3
  const SEQUENCES := 0x1_0000_0000

  type Set = s: seq<U8> | |s| == SET_SIZE witness seq(SET_SIZE, _ => 0)

  datatype Publisher = NotPublishing | Publishing(inputs: Set, written: nat)

  datatype Reader = NotReading | Starting(attempt: nat) | Copying(turn: nat, sequence: nat, copy: seq<U8>)

  datatype Accepted = Accepted(sequence: nat, content: Set)

  datatype Shared = Shared(
    buffers: seq<Set>, published: nat, consumed: nat,
    publisher: Publisher, reader: Reader,
    // history: every set published, in order, and every set the reader accepted
    sets: seq<Set>, accepted: seq<Accepted>)

  datatype Event =
    | PublishBegins(content: Set)
    | PublishWrites
    | PublishCommits
    | ReadBegins
    | ReadLooks
    | ReadCopies
    | ReadChecks

  // The two numbers look the same in 32 bits.
  predicate SameNumber(a: nat, b: nat) { a % SEQUENCES == b % SEQUENCES }

  function BufferOf(number: nat): nat { number % SEQUENCES % 2 }

  // The one assumption: a single copy is not overtaken by 2^32 publications.
  predicate Enabled(s: Shared, e: Event) {
    match e
    case PublishBegins(_) => s.publisher.NotPublishing?
    case PublishWrites => s.publisher.Publishing? && s.publisher.written < SET_SIZE
    case PublishCommits =>
      && s.publisher.Publishing? && s.publisher.written == SET_SIZE
      && (s.reader.Copying? ==> s.published + 1 < s.reader.sequence + SEQUENCES)
    case ReadBegins => s.reader.NotReading?
    case ReadLooks => s.reader.Starting?
    case ReadCopies => s.reader.Copying? && |s.reader.copy| < SET_SIZE
    case ReadChecks => s.reader.Copying? && |s.reader.copy| == SET_SIZE
  }

  function Next(s: Shared, e: Event): Shared
    requires |s.buffers| == 2 && Enabled(s, e)
  {
    match e
    case PublishBegins(content) => s.(publisher := Publishing(content, 0))
    case PublishWrites =>
      var b := BufferOf(s.published + 1);
      var i := s.publisher.written;
      s.(buffers := s.buffers[b := s.buffers[b][i := s.publisher.inputs[i]]],
         publisher := s.publisher.(written := i + 1))
    case PublishCommits =>
      s.(published := s.published + 1, publisher := NotPublishing, sets := s.sets + [s.publisher.inputs])
    case ReadBegins => s.(reader := Starting(0))
    case ReadLooks =>
      if s.reader.attempt >= RETRIES || SameNumber(s.published, s.consumed) then s.(reader := NotReading)
      else s.(reader := Copying(s.reader.attempt, s.published, []))
    case ReadCopies =>
      s.(reader := s.reader.(copy := s.reader.copy + [s.buffers[BufferOf(s.reader.sequence)][|s.reader.copy|]]))
    case ReadChecks =>
      if SameNumber(s.published, s.reader.sequence)
      then s.(consumed := s.reader.sequence, reader := NotReading,
              accepted := s.accepted + [Accepted(s.reader.sequence, s.reader.copy)])
      else s.(reader := Starting(s.reader.turn + 1))
  }

  function Start(a: Set, b: Set): Shared { Shared([a, b], 0, 0, NotPublishing, NotReading, [], []) }

  predicate Run(states: seq<Shared>, events: seq<Event>) {
    && |states| == |events| + 1
    && |states[0].buffers| == 2 && states[0] == Start(states[0].buffers[0], states[0].buffers[1])
    && forall i :: 0 <= i < |events| ==>
         && |states[i].buffers| == 2 && Enabled(states[i], events[i])
         && states[i + 1] == Next(states[i], events[i])
  }

  // The published buffer is the one not being written.
  predicate BuffersOk(s: Shared) {
    && |s.buffers| == 2
    && |s.sets| == s.published
    && (s.published > 0 ==> s.buffers[BufferOf(s.published)] == s.sets[s.published - 1])
    && (s.publisher.Publishing? ==>
          && s.publisher.written <= SET_SIZE
          && s.buffers[BufferOf(s.published + 1)][..s.publisher.written] == s.publisher.inputs[..s.publisher.written])
  }

  // What was copied so far is a piece of one set unless a newer one has been published.
  predicate ReaderOk(s: Shared) {
    && |s.sets| == s.published
    && s.consumed <= s.published
    && (s.reader.Copying? ==>
          && |s.reader.copy| <= SET_SIZE
          && s.consumed < s.reader.sequence <= s.published < s.reader.sequence + SEQUENCES
          && (s.reader.sequence == s.published ==>
                s.reader.copy == s.sets[s.published - 1][..|s.reader.copy|]))
  }

  predicate AcceptedOk(s: Shared) {
    && (forall i :: 0 <= i < |s.accepted| ==>
          && 0 < s.accepted[i].sequence <= s.consumed <= |s.sets|
          && s.accepted[i].content == s.sets[s.accepted[i].sequence - 1])
    && (forall i, j :: 0 <= i < j < |s.accepted| ==> s.accepted[i].sequence < s.accepted[j].sequence)
  }

  predicate Inv(s: Shared) { BuffersOk(s) && ReaderOk(s) && AcceptedOk(s) }

  lemma BuffersAlternate(n: nat)
    ensures BufferOf(n) < 2 && BufferOf(n + 1) == 1 - BufferOf(n)
  {
  }

  lemma NumbersDiffer(a: nat, b: nat)
    requires b <= a < b + SEQUENCES
    ensures SameNumber(a, b) <==> a == b
  {
  }

  lemma PublisherKeepsInv(s: Shared, e: Event)
    requires Inv(s) && Enabled(s, e) && (e.PublishBegins? || e.PublishWrites? || e.PublishCommits?)
    ensures Inv(Next(s, e))
  {
    hide BufferOf, SameNumber;
    BuffersAlternate(s.published);
    var s' := Next(s, e);
    if e.PublishCommits? {
      assert s.buffers[BufferOf(s.published + 1)][..SET_SIZE] == s.publisher.inputs[..SET_SIZE];
      assert s'.buffers[BufferOf(s'.published)] == s.publisher.inputs;
    }
  }

  lemma ReaderKeepsInv(s: Shared, e: Event)
    requires Inv(s) && Enabled(s, e) && (e.ReadBegins? || e.ReadLooks? || e.ReadCopies? || e.ReadChecks?)
    ensures Inv(Next(s, e))
  {
    hide BufferOf, SameNumber;
    BuffersAlternate(s.published);
    if e.ReadLooks? && s.published == s.consumed {
      NumbersDiffer(s.published, s.consumed);
    } else if e.ReadChecks? {
      NumbersDiffer(s.published, s.reader.sequence);
    }
  }

  lemma StepKeepsInv(s: Shared, e: Event)
    requires Inv(s) && Enabled(s, e)
    ensures Inv(Next(s, e))
  {
    hide Inv, Next, Enabled;
    if e.PublishBegins? || e.PublishWrites? || e.PublishCommits? {
      PublisherKeepsInv(s, e);
    } else {
      ReaderKeepsInv(s, e);
    }
  }

  lemma {:induction false} RunKeepsInv(states: seq<Shared>, events: seq<Event>, k: nat)
    requires Run(states, events) && k < |states|
    ensures Inv(states[k])
    decreases k
  {
    if k > 0 {
      RunKeepsInv(states, events, k - 1);
      hide Inv, Next, Enabled;
      assert Enabled(states[k - 1], events[k - 1]) && states[k] == Next(states[k - 1], events[k - 1]);
      StepKeepsInv(states[k - 1], events[k - 1]);
    }
  }

  // Whatever the interleaving, an accepted copy is exactly one published set, never a
  // mixture of two, and accepted sequence numbers strictly increase.
  lemma AcceptedSetsAreWhole(states: seq<Shared>, events: seq<Event>, k: nat)
    requires Run(states, events) && k < |states|
    ensures
      var s := states[k];
      && |s.sets| == s.published
      && (forall i :: 0 <= i < |s.accepted| ==>
            0 < s.accepted[i].sequence <= s.published && s.accepted[i].content == s.sets[s.accepted[i].sequence - 1])
      && (forall i, j :: 0 <= i < j < |s.accepted| ==> s.accepted[i].sequence < s.accepted[j].sequence)
  {
    RunKeepsInv(states, events, k);
  }

  // What each step of the two sides does. The reader gives up after three copies that were
  // overtaken, or with nothing new; it accepts a copy if and only if no set was published
  // since it looked.
  predicate StepOutcome(s: Shared, e: Event, s': Shared) {
    match e
    case PublishBegins(content) => s' == s.(publisher := Publishing(content, 0))
    case PublishWrites =>
      && s.publisher.Publishing? && |s'.buffers| == 2
      && s' == s.(buffers := s'.buffers, publisher := Publishing(s.publisher.inputs, s.publisher.written + 1))
    case PublishCommits =>
      s.publisher.Publishing? &&
      s' == s.(published := s.published + 1, publisher := NotPublishing, sets := s.sets + [s.publisher.inputs])
    case ReadBegins => s' == s.(reader := Starting(0))
    case ReadLooks =>
      s.reader.Starting? &&
      s' == s.(reader := if s.reader.attempt < 3 && s.published % 0x1_0000_0000 != s.consumed % 0x1_0000_0000
                         then Copying(s.reader.attempt, s.published, []) else NotReading)
    case ReadCopies =>
      && s.reader.Copying? && s'.reader.Copying? && |s'.reader.copy| == |s.reader.copy| + 1
      && s' == s.(reader := s.reader.(copy := s'.reader.copy))
      && |s.sets| == s.published
      && (s.reader.sequence == s.published > 0 && s.reader.copy <= s.sets[s.published - 1] ==>
            s'.reader.copy <= s.sets[s.published - 1])
    case ReadChecks =>
      && s.reader.Copying? && |s.reader.copy| == SET_SIZE
      && if s.published == s.reader.sequence
         then s' == s.(consumed := s.published, reader := NotReading,
                       accepted := s.accepted + [Accepted(s.published, s.reader.copy)])
         else s' == s.(reader := Starting(s.reader.turn + 1))
  }

  lemma StepRule(s: Shared, e: Event)
    requires Inv(s) && Enabled(s, e) && |s.sets| == s.published
    ensures StepOutcome(s, e, Next(s, e))
  {
    if e.ReadChecks? {
      NumbersDiffer(s.published, s.reader.sequence);
    } else if e.ReadCopies? && s.published > 0 {
      BuffersAlternate(s.published);
    }
    hide BufferOf;
  }

  // A reader that looked and is left alone copies on and on, and its copy is then the newest set.
  lemma {:induction false} LeftAlone(states: seq<Shared>, events: seq<Event>, i: nat, j: nat)
    requires Run(states, events) && i < j <= |events| && events[i].ReadLooks? && states[i + 1].reader.Copying?
    requires forall k :: i < k < j ==> events[k].ReadCopies?
    ensures states[j].reader.Copying? && states[j].reader.sequence == states[i].published == states[j].published
    ensures |states[j].reader.copy| == j - i - 1
    ensures states[j].sets == states[i].sets && states[j].accepted == states[i].accepted
    decreases j
  {
    RunKeepsInv(states, events, i);
    RunKeepsInv(states, events, j - 1);
    assert |states[j - 1].buffers| == 2 && Enabled(states[j - 1], events[j - 1]);
    assert states[j] == Next(states[j - 1], events[j - 1]);
    StepRule(states[j - 1], events[j - 1]);
    hide Inv, Next, Enabled;
    if i + 1 < j {
      LeftAlone(states, events, i, j - 1);
    }
    hide Run;
  }

  // So an undisturbed read takes the newest set, once and whole.
  lemma UndisturbedReadTakesNewest(states: seq<Shared>, events: seq<Event>, i: nat)
    requires Run(states, events) && i + SET_SIZE + 1 < |events| && events[i].ReadLooks? && states[i + 1].reader.Copying?
    requires forall k :: i < k <= i + SET_SIZE ==> events[k].ReadCopies?
    requires events[i + SET_SIZE + 1].ReadChecks?
    ensures
      var s, s' := states[i], states[i + SET_SIZE + 2];
      |s.sets| == s.published > 0 && s'.accepted == s.accepted + [Accepted(s.published, s.sets[s.published - 1])]
  {
    var j := i + SET_SIZE + 1;
    LeftAlone(states, events, i, j);
    RunKeepsInv(states, events, i);
    RunKeepsInv(states, events, j);
    assert |states[j].buffers| == 2 && Enabled(states[j], events[j]) && states[j + 1] == Next(states[j], events[j]);
    assert states[j].reader.copy == states[j].sets[states[j].published - 1];
    StepRule(states[j], events[j]);
    hide Next, Enabled, Run;
  }

  // ------------------------------------------------------------------- the object

  class Snapshots {
    const buffers: array2<U8>
    var published: U32
    var consumed: U32

    ghost predicate Valid() {
      buffers.Length0 == 2 && buffers.Length1 == SET_SIZE
    }

    ghost function Buffer(b: nat): Set
      reads buffers
      requires Valid() && b < 2
    {
      seq(SET_SIZE, i requires 0 <= i < SET_SIZE && Valid() reads buffers => buffers[b, i])
    }

    constructor ()
      ensures Valid() && fresh(buffers) && published == consumed == 0
    {
      buffers := new U8[2, SET_SIZE];
      published, consumed := 0, 0;
    }

    // One undisturbed publication: the other buffer is left as it was.
    method Capture(inputs: Set)
      requires Valid()
      modifies this`published, buffers
      ensures Valid() && published == Inc32(old(published))
      ensures Buffer(published % 2) == inputs
      ensures Buffer(old(published) % 2) == old(Buffer(published % 2))
    {
      var next := Inc32(published);
      for i := 0 to SET_SIZE
        invariant published == old(published)
        invariant forall j :: 0 <= j < i ==> buffers[next % 2, j] == inputs[j]
        invariant forall j :: 0 <= j < SET_SIZE ==> buffers[published % 2, j] == old(buffers[published % 2, j])
      {
        buffers[next % 2, i] := inputs[i];
      }
      published := next;
    }

    // One undisturbed read takes the newest set, once.
    method Read() returns (taken: Option<Set>)
      requires Valid()
      modifies this`consumed
      ensures Valid() && consumed == published
      ensures taken == if old(consumed) == published then None else Some(old(Buffer(published % 2)))
    {
      if published == consumed {
        return None;
      }
      var copy := [];
      for i := 0 to SET_SIZE
        invariant |copy| == i && forall j :: 0 <= j < i ==> copy[j] == buffers[published % 2, j]
      {
        copy := copy + [buffers[published % 2, i]];
      }
      assert copy == Buffer(published % 2);
      consumed := published;
      var content: Set := copy;
      return Some(content);
    }
  }
}
