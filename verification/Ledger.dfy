// From submission to confirmation: which submitted target each sent frame carries.
//
// A ledger is kept over a run from the calls and the decisions alone. Each start or recovery
// opens a book, with the latest submitted target if there is one; each submission that is
// taken while the stream accepts points adds an entry; each RESET or APPLY decided on a
// queued target draws the next entry. A mark says which entry of which book a frame carries.
module Ledger {
  import opened Words
  import opened RobotTrajectory
  import opened CspScheduler
  import opened Link
  import opened LinkInvariant
  import opened S = Streaming
  import opened HoldDiscipline
  import Pdo

  type Target = RobotTrajectory.Target

  datatype Mark = Mark(book: nat, entry: nat)

  datatype Ledger = Ledger(
    // taken targets by start or recovery, in the order of the calls
    books: seq<seq<Target>>,
    // entries of the present book drawn so far
    drawn: nat,
    latest: Option<Target>,
    // what the worker's present action carries, and the last one it completed
    held: Mark, completed: Mark,
    // what each sent frame carries
    marks: seq<Mark>)

  const EMPTY := Ledger([[]], 0, None, Mark(0, 0), Mark(0, 0), [])

  predicate Accepting(stream: Stream) {
    stream == StartPending || stream == ResetAwaitingAck || stream == CspScheduler.Streaming
  }

  // The scheduler takes the target: all axes are there, and room if it would be queued.
  predicate IsTaken(s: Sys, call: Call) {
    call.CallSubmit? && call.allAxes && (Accepting(s.host.stream) ==> |s.host.queue| < s.cfg.capacity)
  }

  function Present(l: Ledger): nat { if |l.books| > 0 then |l.books| - 1 else 0 }

  function Opened(l: Ledger): Ledger {
    l.(books := l.books + [if l.latest.Some? then [l.latest.value] else []], drawn := 0)
  }

  function Entered(l: Ledger, stream: Stream, target: Target): Ledger
    requires |l.books| > 0
  {
    l.(latest := Some(target),
       books := if Accepting(stream) then l.books[Present(l) := l.books[Present(l)] + [target]] else l.books)
  }

  // The action was drawn from the queue, or repeats the last target on an empty one.
  function Drawn(l: Ledger, s: Sys, action: Action): Ledger {
    if action.ResetApply? || (action.Apply? && s.host.queue != [])
    then l.(held := Mark(Present(l), l.drawn), drawn := l.drawn + 1)
    else if action.Apply? then l.(held := l.completed)
    else l
  }

  function Recorded(l: Ledger, s: Sys, e: Event, s': Sys): Ledger
    requires |l.books| > 0
  {
    if Restarts(s, e) then Opened(l)
    else
      match e
      case HostCall(call) => if IsTaken(s, call) then Entered(l, s.host.stream, call.target) else l
      case HostDecide(_) => if s'.pending.Decided? then Drawn(l, s, s'.pending.action) else l
      case LinkTakes => l.(marks := l.marks + [l.held])
      case HostComplete => if s.pending.SentOut? && !s.pending.action.Hold? then l.(completed := l.held) else l
      case _ => l
  }

  function LedgerAt(states: seq<Sys>, events: seq<Event>, k: nat): (l: Ledger)
    requires |states| == |events| + 1 && k < |states|
    ensures |l.books| > 0
    decreases k
  {
    if k == 0 then EMPTY
    else Recorded(LedgerAt(states, events, k - 1), states[k - 1], events[k - 1], states[k])
  }

  // ------------------------------------------------------------------- the invariant

  predicate Valid(l: Ledger, m: Mark) { m.book < |l.books| && m.entry < |l.books[m.book]| }

  function Entry(l: Ledger, m: Mark): Target
    requires Valid(l, m)
  {
    l.books[m.book][m.entry]
  }

  // A point repeats the one before it, is the next of its book, or the first of a later book.
  predicate Follows(m: Mark, m': Mark) {
    || m' == m
    || (m'.book == m.book && m'.entry == m.entry + 1)
    || (m'.book > m.book && m'.entry == 0)
  }

  // The queue is what was entered in the present book and not drawn.
  predicate QueueIsRest(s: Sys, l: Ledger)
    requires |l.books| > 0
  {
    && l.latest == s.host.latest
    && l.drawn <= |l.books[Present(l)]|
    && (Accepting(s.host.stream) ==> s.host.queue == l.books[Present(l)][l.drawn..])
  }

  predicate Carries(l: Ledger, f: Frame, m: Mark) {
    !f.kind.HoldFrame? ==> Valid(l, m) && f.target == Entry(l, m) && (f.kind.ResetFrame? ==> m.entry == 0)
  }

  predicate FramesMarked(s: Sys, l: Ledger) {
    && |l.marks| == |s.sent|
    && forall i :: 0 <= i < |s.sent| ==> Carries(l, s.sent[i], l.marks[i])
  }

  predicate InOrder(s: Sys, l: Ledger)
    requires |l.marks| == |s.sent|
  {
    forall i :: 0 <= i < |s.sent| && s.sent[i].kind.ApplyFrame? ==>
      i > 0 && !s.sent[i - 1].kind.HoldFrame? && Follows(l.marks[i - 1], l.marks[i])
  }

  // The next APPLY can follow what was sent last.
  predicate Continues(s: Sys, l: Ledger, m: Mark)
    requires |l.marks| == |s.sent|
  {
    s.sent != [] && !s.sent[|s.sent| - 1].kind.HoldFrame? && Follows(l.marks[|s.sent| - 1], m)
  }

  predicate SenderMarked(s: Sys, l: Ledger)
    requires |l.marks| == |s.sent|
  {
    && (!s.pending.Quiet? && !s.pending.action.Hold? && s.pending.action != NoAction ==>
          Valid(l, l.held) && s.pending.action.target == Entry(l, l.held))
    && (s.pending.Decided? && s.pending.action.ResetApply? ==> l.held.entry == 0)
    && (s.pending.Decided? && s.pending.action.Apply? ==> Continues(s, l, l.held))
    && (s.pending.SentOut? && !s.pending.action.Hold? ==> s.sent != [] && l.marks[|s.sent| - 1] == l.held)
    && (s.host.lastSent.Some? ==> Valid(l, l.completed) && s.host.lastSent.value == Entry(l, l.completed))
  }

  // Where the present book stands against what was completed last.
  predicate StreamMarked(s: Sys, l: Ledger)
    requires |l.marks| == |s.sent|
  {
    && (s.host.stream == StartPending && !(SendsReset(s.pending) && l.held.book == Present(l)) ==> l.drawn == 0)
    && (s.host.stream == StartPending && SendsReset(s.pending) && l.held.book == Present(l) ==> l.drawn == 1)
    && l.held.book <= Present(l) && l.completed.book <= Present(l)
    && (Moving(s.host.stream) && !(s.pending.SentOut? && !s.pending.action.Hold?) ==>
          Continues(s, l, l.completed) && l.marks[|s.sent| - 1] == l.completed)
    && (Moving(s.host.stream) && s.pending.Quiet? ==> Follows(l.completed, Mark(Present(l), l.drawn)))
    && (Moving(s.host.stream) && !s.pending.Quiet? ==> Follows(l.held, Mark(Present(l), l.drawn)))
  }

  predicate Kept(s: Sys, l: Ledger) {
    && |l.books| > 0
    && QueueIsRest(s, l) && FramesMarked(s, l) && InOrder(s, l) && SenderMarked(s, l) && StreamMarked(s, l)
  }

  // What the joint invariant says of host and sender, as far as the ledger needs it.
  predicate Tidy(s: Sys) {
    && Quiescent(s.host.terminal)
    && (s.host.stream == ResetAwaitingAck ==> s.pending.Quiet?)
    && (!s.pending.Quiet? ==> s.pending.action != NoAction)
    && (s.host.stream == CspScheduler.Streaming && !s.pending.Quiet? ==> s.pending.action.Apply?)
    && (s.pending.SentOut? ==>
          s.sent != [] && s.sent[|s.sent| - 1] == FrameOf(s.pending.action, s.pending.sequence))
  }

  lemma InvIsTidy(s: Sys)
    requires Inv(s)
    ensures Tidy(s)
  {
    hide DeviceOk, Ordered, SnapsOk, CreditOk, ChannelOk, SequencesCount;
  }

  // ----------------------------------------------------------------- what keeps it

  // Books only grow: marks stay valid and mean the same.
  ghost predicate Grows(l: Ledger, l': Ledger) {
    && |l.books| <= |l'.books|
    && forall m :: Valid(l, m) ==> Valid(l', m) && Entry(l', m) == Entry(l, m)
  }

  lemma OpeningGrows(l: Ledger)
    ensures Grows(l, Opened(l))
  {
  }

  lemma EnteringGrows(l: Ledger, stream: Stream, target: Target)
    requires |l.books| > 0
    ensures Grows(l, Entered(l, stream, target))
  {
  }

  lemma GrowthKeepsFrames(s: Sys, l: Ledger, l': Ledger)
    requires FramesMarked(s, l) && Grows(l, l') && l'.marks == l.marks
    ensures FramesMarked(s, l')
  {
    forall i | 0 <= i < |s.sent| ensures Carries(l', s.sent[i], l'.marks[i]) {
      assert Carries(l, s.sent[i], l.marks[i]);
    }
  }

  lemma GrowthKeepsSender(s: Sys, l: Ledger, s': Sys, l': Ledger)
    requires |l.marks| == |s.sent| && SenderMarked(s, l) && Grows(l, l') && l'.marks == l.marks
    requires s'.sent == s.sent && s'.pending == s.pending && l'.held == l.held && l'.completed == l.completed
    requires s'.host.lastSent == s.host.lastSent || s'.host.lastSent.None?
    ensures SenderMarked(s', l')
  {
  }

  lemma RestartKeeps(s: Sys, call: Call)
    requires Restarts(s, HostCall(call))
    ensures
      var s' := Next(s, HostCall(call));
      && s'.sent == s.sent && s'.pending == s.pending && s'.host.lastSent == None && s'.host.stream == StartPending
      && s'.host.latest == s.host.latest
      && s'.host.queue == if s.host.latest.Some? then [s.host.latest.value] else []
  {
  }

  lemma RestartKeepsLedger(s: Sys, l: Ledger, call: Call)
    requires Kept(s, l) && Restarts(s, HostCall(call))
    ensures Kept(Next(s, HostCall(call)), Opened(l))
  {
    RestartKeeps(s, call);
    OpeningGrows(l);
    var s', l' := Next(s, HostCall(call)), Opened(l);
    hide Next, Restarts, Grows, Follows;
    GrowthKeepsFrames(s, l, l');
    GrowthKeepsSender(s, l, s', l');
    hide SenderMarked, FramesMarked;
  }

  // Apart from a start or recovery, a call leaves the queue to the stream or takes a target.
  lemma CallShape(s: Sys, call: Call)
    requires !Restarts(s, HostCall(call))
    ensures
      var h, h' := s.host, Next(s, HostCall(call)).host;
      && h'.lastSent == h.lastSent
      && (h'.stream == h.stream || !Accepting(h'.stream))
      && h'.latest == (if IsTaken(s, call) then Some(call.target) else h.latest)
      && (Accepting(h'.stream) ==> h'.queue == if IsTaken(s, call) then h.queue + [call.target] else h.queue)
  {
  }

  lemma CallKeepsLedger(s: Sys, l: Ledger, call: Call)
    requires Tidy(s) && Kept(s, l) && !Restarts(s, HostCall(call))
    ensures Kept(Next(s, HostCall(call)), if IsTaken(s, call) then Entered(l, s.host.stream, call.target) else l)
  {
    CallShape(s, call);
    var s' := Next(s, HostCall(call));
    var l' := if IsTaken(s, call) then Entered(l, s.host.stream, call.target) else l;
    if IsTaken(s, call) {
      EnteringGrows(l, s.host.stream, call.target);
    }
    assert s'.sent == s.sent && s'.pending == s.pending;
    hide Next, Inv, Restarts, Follows, Numbered, DeviceOk, Ordered, SnapsOk, CreditOk, Phases, IsTaken;
    GrowthKeepsFrames(s, l, l');
    GrowthKeepsSender(s, l, s', l');
    hide SenderMarked, FramesMarked, Grows;
  }

  // What a decision may do to queue and stream.
  predicate Decides(s: Sys, s': Sys, action: Action) {
    var h, h' := s.host, s'.host;
    && s.pending.Quiet? && s'.sent == s.sent
    && s'.pending == (if action.NoAction? then Quiet else Decided(action))
    && h'.latest == h.latest && h'.lastSent == h.lastSent
    && (Accepting(h'.stream) ==>
          h'.stream == h.stream || (h.stream == ResetAwaitingAck && h'.stream == CspScheduler.Streaming))
    && (action.ResetApply? ==> h.stream == StartPending == h'.stream)
    && (action.Apply? ==> h.stream == CspScheduler.Streaming == h'.stream)
    && (action.ResetApply? || (action.Apply? && h.queue != []) ==>
          h.queue != [] && action.target == h.queue[0] && h'.queue == h.queue[1..])
    && (action.Apply? && h.queue == [] ==> h.lastSent == Some(action.target) && h'.queue == [])
    && (action.Hold? ==> !Accepting(h'.stream))
    && (action.NoAction? && Accepting(h'.stream) ==> h'.queue == h.queue)
  }

  lemma StreamingDecides(s: Sys, t: Clock)
    requires Enabled(s, HostDecide(t)) && s.host.stream == CspScheduler.Streaming && s.host.lastSent.Some?
    ensures Decides(s, Next(s, HostDecide(t)), Decide(s.cfg, s.host, t).1)
  {
    hide RemoteFault, MayApply, SafetyFault;
  }

  lemma OtherDecides(s: Sys, t: Clock)
    requires Enabled(s, HostDecide(t)) && s.host.stream != CspScheduler.Streaming && Quiescent(s.host.terminal)
    requires s.host.stream == ResetAwaitingAck ==> s.host.lastSent.Some?
    ensures Decides(s, Next(s, HostDecide(t)), Decide(s.cfg, s.host, t).1)
  {
    hide SafetyFault, ResetAccepted, AllowsReset, DecideStreaming;
  }

  lemma DecisionKeepsQueue(s: Sys, l: Ledger, s': Sys, action: Action)
    requires Kept(s, l) && Decides(s, s', action)
    ensures QueueIsRest(s', Drawn(l, s, action))
  {
    hide FramesMarked, InOrder, SenderMarked, StreamMarked;
  }

  lemma DecisionKeepsSender(s: Sys, l: Ledger, s': Sys, action: Action)
    requires Kept(s, l) && Decides(s, s', action)
    ensures SenderMarked(s', Drawn(l, s, action))
  {
    hide FramesMarked, InOrder;
  }

  lemma DecisionKeepsStream(s: Sys, l: Ledger, s': Sys, action: Action)
    requires Kept(s, l) && Decides(s, s', action)
    ensures StreamMarked(s', Drawn(l, s, action))
  {
    hide FramesMarked, InOrder, SenderMarked, QueueIsRest;
  }

  lemma DecideKeepsLedger(s: Sys, l: Ledger, t: Clock)
    requires Tidy(s) && Kept(s, l) && Enabled(s, HostDecide(t))
    requires Moving(s.host.stream) ==> s.host.lastSent.Some?
    ensures
      var s' := Next(s, HostDecide(t));
      Kept(s', if s'.pending.Decided? then Drawn(l, s, s'.pending.action) else l)
  {
    var s' := Next(s, HostDecide(t));
    var action := Decide(s.cfg, s.host, t).1;
    if s.host.stream == CspScheduler.Streaming {
      StreamingDecides(s, t);
    } else {
      OtherDecides(s, t);
    }
    assert Decides(s, s', action);
    hide Decide, Next, Enabled, Tidy, FramesMarked, InOrder, QueueIsRest, SenderMarked, StreamMarked;
    DecisionKeepsQueue(s, l, s', action);
    DecisionKeepsSender(s, l, s', action);
    DecisionKeepsStream(s, l, s', action);
    SameWireKeepsFrames(s, l, s', Drawn(l, s, action));
  }

  lemma SameWireKeepsFrames(s: Sys, l: Ledger, s': Sys, l': Ledger)
    requires FramesMarked(s, l) && InOrder(s, l)
    requires s'.sent == s.sent && l'.marks == l.marks && l'.books == l.books
    ensures FramesMarked(s', l') && InOrder(s', l')
  {
  }

  lemma TakeKeepsLedger(s: Sys, l: Ledger)
    requires Tidy(s) && Kept(s, l) && Enabled(s, LinkTakes)
    ensures Kept(Next(s, LinkTakes), l.(marks := l.marks + [l.held]))
  {
    hide DeviceOk, Ordered, SnapsOk, CreditOk, Follows;
  }

  lemma FailureKeepsLedger(s: Sys, l: Ledger)
    requires Tidy(s) && Kept(s, l) && Enabled(s, LinkFails)
    ensures Kept(Next(s, LinkFails), l)
  {
    var s' := Next(s, LinkFails);
    assert s'.sent == s.sent && s'.pending == Quiet && s'.host == s.host.(stream := Fault);
    hide Next, Enabled, Tidy, Follows;
    SameWireKeepsFrames(s, l, s', l);
    hide FramesMarked, InOrder;
  }

  // What a completed send does to queue and stream.
  predicate Completes(s: Sys, s': Sys) {
    && s.pending.SentOut? && s.pending.action != NoAction && s'.pending == Quiet && s'.sent == s.sent
    && s'.host.latest == s.host.latest && s'.host.queue == s.host.queue
    && s'.host.lastSent == (if s.pending.action.Hold? then s.host.lastSent else Some(s.pending.action.target))
    && s'.host.stream == if s.pending.action.Hold? && s.host.stream == Finishing then s.host.terminal
                         else if s.pending.action.ResetApply? && s.host.stream == StartPending then ResetAwaitingAck
                         else s.host.stream
  }

  lemma CompletionShape(s: Sys)
    requires Tidy(s) && Enabled(s, HostComplete)
    ensures Completes(s, Next(s, HostComplete))
  {
  }

  lemma CompleteKeepsLedger(s: Sys, l: Ledger)
    requires Tidy(s) && Kept(s, l) && Enabled(s, HostComplete)
    ensures Kept(Next(s, HostComplete), if s.pending.action.Hold? then l else l.(completed := l.held))
  {
    CompletionShape(s);
    var s', l' := Next(s, HostComplete), if s.pending.action.Hold? then l else l.(completed := l.held);
    hide Next, Enabled;
    SameWireKeepsFrames(s, l, s', l');
    assert s.pending.action.ResetApply? ==> l.held.entry == 0 by {
      assert Carries(l, s.sent[|s.sent| - 1], l.marks[|s.sent| - 1]);
    }
    hide FramesMarked, InOrder;
  }

  lemma OtherKeepsLedger(s: Sys, l: Ledger, e: Event)
    requires Kept(s, l) && Enabled(s, e)
    requires !e.HostCall? && !e.HostDecide? && !e.LinkTakes? && !e.HostComplete? && !e.LinkFails?
    ensures Kept(Next(s, e), l)
  {
    var s' := Next(s, e);
    assert s'.sent == s.sent && s'.pending == s.pending;
    assert s'.host == s.host.(remote := s'.host.remote, credit := s'.host.credit);
    hide Next;
    SameWireKeepsFrames(s, l, s', l);
    hide FramesMarked, InOrder;
  }

  lemma InitialLedger(s: Sys)
    requires Initial(s)
    ensures Kept(s, EMPTY)
  {
  }

  lemma StepKeepsLedger(s: Sys, l: Ledger, e: Event)
    requires Inv(s) && Kept(s, l) && Enabled(s, e) && (Moving(s.host.stream) ==> s.host.lastSent.Some?)
    ensures Kept(Next(s, e), Recorded(l, s, e, Next(s, e)))
  {
    InvIsTidy(s);
    assert e.HostDecide? ==> !Restarts(s, e);
    hide Inv, Kept, Next, Tidy, Restarts;
    match e
    case HostCall(call) => if Restarts(s, e) { RestartKeepsLedger(s, l, call); } else { CallKeepsLedger(s, l, call); }
    case HostDecide(t) => DecideKeepsLedger(s, l, t);
    case LinkTakes => TakeKeepsLedger(s, l);
    case LinkFails => FailureKeepsLedger(s, l);
    case HostComplete => CompleteKeepsLedger(s, l);
    case _ => OtherKeepsLedger(s, l, e);
  }

  lemma {:induction false} RunKeepsLedger(states: seq<Sys>, events: seq<Event>, k: nat)
    requires Run(states, events) && k < |states|
    ensures Kept(states[k], LedgerAt(states, events, k))
    decreases k
  {
    hide Kept, Inv, Next, Enabled, Recorded, Initial;
    if k == 0 {
      InitialLedger(states[0]);
    } else {
      RunKeepsLedger(states, events, k - 1);
      RunKeepsInv(states, events, k - 1);
      RunIsDisciplined(states, events, k - 1);
      assert Enabled(states[k - 1], events[k - 1]) && states[k] == Next(states[k - 1], events[k - 1]);
      StepKeepsLedger(states[k - 1], LedgerAt(states, events, k - 1), events[k - 1]);
    }
  }

  // ------------------------------------------------------------------- the results

  // While the stream accepts points its queue is, in the order of the calls, what was taken
  // since the latest start or recovery and not drawn by a decision yet; the latest target is
  // the last one taken.
  lemma QueueIsSubmissionOrder(states: seq<Sys>, events: seq<Event>, k: nat)
    requires Run(states, events) && k < |states|
    ensures
      var s, l := states[k], LedgerAt(states, events, k);
      var book := l.books[|l.books| - 1];
      && s.host.latest == l.latest
      && l.drawn <= |book|
      && (Accepting(s.host.stream) ==> s.host.queue == book[l.drawn..])
  {
    hide Initial, Next, Enabled, FramesMarked, InOrder, SenderMarked, StreamMarked, LedgerAt;
    RunKeepsLedger(states, events, k);
    hide Run;
  }

  // Every RESET and APPLY ever sent carries a submitted target. A RESET carries the first of
  // its book. An APPLY follows another point at once, and repeats it, or carries the next of
  // the same book, or the first of a later one.
  lemma FramesFollowSubmissions(states: seq<Sys>, events: seq<Event>, k: nat)
    requires Run(states, events) && k < |states|
    ensures
      var s, l := states[k], LedgerAt(states, events, k);
      && |l.marks| == |s.sent|
      && (forall i :: 0 <= i < |s.sent| && !s.sent[i].kind.HoldFrame? ==>
            && Valid(l, l.marks[i]) && s.sent[i].target == Entry(l, l.marks[i])
            && (s.sent[i].kind.ResetFrame? ==> l.marks[i].entry == 0))
      && (forall i :: 0 <= i < |s.sent| && s.sent[i].kind.ApplyFrame? ==>
            i > 0 && !s.sent[i - 1].kind.HoldFrame? && Follows(l.marks[i - 1], l.marks[i]))
  {
    RunKeepsLedger(states, events, k);
    var s, l := states[k], LedgerAt(states, events, k);
    hide Run, QueueIsRest, SenderMarked, StreamMarked, Follows;
    forall i | 0 <= i < |s.sent| && !s.sent[i].kind.HoldFrame?
      ensures Valid(l, l.marks[i]) && s.sent[i].target == Entry(l, l.marks[i])
      ensures s.sent[i].kind.ResetFrame? ==> l.marks[i].entry == 0
    {
      assert Carries(l, s.sent[i], l.marks[i]);
    }
  }

  // Confirmed point `i` of the present generation commanded this entry, in its turn.
  predicate ConfirmsEntry(s: Sys, l: Ledger, i: nat)
    requires i < |s.node.log| && s.resetIndex + i < |l.marks|
  {
    var m := l.marks[s.resetIndex + i];
    && Valid(l, m) && Pdo.HoldsTargets(s.node.log[i].image, Entry(l, m))
    && if i == 0 then m.entry == 0 else Follows(l.marks[s.resetIndex + i - 1], m)
  }

  // From submission to confirmation: the points confirmed in the present generation commanded
  // submitted targets, beginning with the first of a book and going on in the order of the
  // calls, none skipped and none out of turn.
  lemma ConfirmedAsSubmitted(states: seq<Sys>, events: seq<Event>, k: nat)
    requires Run(states, events) && k < |states|
    ensures
      var s, l := states[k], LedgerAt(states, events, k);
      && s.resetIndex + |s.node.log| <= |l.marks|
      && forall i :: 0 <= i < |s.node.log| ==> ConfirmsEntry(s, l, i)
  {
    hide Initial, Next, Enabled, Follows, Pdo.HoldsTargets, LedgerAt, Valid, Entry;
    FramesFollowSubmissions(states, events, k);
    ExecutedIsWhatWasSent(states, events, k);
    var s, l := states[k], LedgerAt(states, events, k);
    hide Run;
    forall i | 0 <= i < |s.node.log| ensures ConfirmsEntry(s, l, i) {
      var j := s.resetIndex + i;
      assert CarriedBy(s.node.accepted[i], s.sent[j], i);
      assert s.sent[j].target == Entry(l, l.marks[j]);
      assert i > 0 ==> Follows(l.marks[j - 1], l.marks[j]);
    }
  }
}
