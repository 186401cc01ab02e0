// The SDO worker against the EtherCAT task that wants to close the master: every
// critical section of either side is one step, and the worker's blocking mailbox
// transfer lies between its claim and its publication.
//
// The slot's own content is `SdoSlot.Job`; here only who may touch it, and when.
module SdoWorker {
  import opened Words
  import opened SdoSlot

  datatype MasterState = IDLE | WAIT_LINK | SOEM_INIT | CONFIGURING | OP_REQUEST | OPERATIONAL | ERROR

  // Where the EtherCAT task is between two critical sections.
  datatype Task =
    | Looping
    // flags set, ERROR not yet committed
    | Failing
    // ERROR committed, about to look whether the worker is idle
    | CheckingWorker
    // worker found idle: context, runtime and flags still to be cleared
    | Closing(close: bool)
    | Resetting
    | Finishing
    // initialization passed its guard
    | Initializing

  // What the worker remembers of the job it claimed.
  datatype Claim = Claim(write: bool, slave: nat, index: nat, data: U32, size: int)

  datatype Master = Master(
    state: MasterState, open: bool, mailbox: bool, busy: bool, closePending: bool,
    job: Job, task: Task, worker: Option<Claim>)

  datatype Event =
    // EtherCAT task
    | Submit(request: Request)
    | Collect
    | Withdraw(commandPending: bool)
    | Advance(next: MasterState)
    | Open(ok: bool)
    | EnterOperational(mailboxReady: bool)
    | Fail
    | CommitError
    | CheckWorker
    | CloseContext
    | ResetRuntime
    | ClearPending
    | ErrorCycle
    | Initialize
    | ClearAll
    // SDO worker
    | WorkerClaims
    | WorkerPublishes(data: U32, size: int, wkc: int)

  const BLANK_MASTER := Master(IDLE, false, false, false, false, BLANK, Looping, None)

  // The worker's guard, checked inside its critical section.
  predicate MayClaim(m: Master) {
    m.state == OPERATIONAL && m.open && m.mailbox && !m.busy && IsPending(m.job)
  }

  predicate Enabled(m: Master, e: Event) {
    match e
    case Submit(_) => m.task.Looping? && m.state == OPERATIONAL
    case Collect => m.task.Looping? && m.state == OPERATIONAL
    case Withdraw(_) => m.task.Looping? && m.state == OPERATIONAL
    case Advance(next) =>
      && m.task.Looping? && (m.state == WAIT_LINK || m.state == CONFIGURING)
      && (next == SOEM_INIT <==> m.state == WAIT_LINK)
      && (next == SOEM_INIT || next == CONFIGURING || next == OP_REQUEST)
    case Open(_) => m.task.Looping? && m.state == SOEM_INIT
    case EnterOperational(_) => m.task.Looping? && m.state == OP_REQUEST
    case Fail => m.task.Looping? && m.state != ERROR
    case CommitError => m.task.Failing?
    case CheckWorker => m.task.CheckingWorker?
    case CloseContext => m.task.Closing?
    case ResetRuntime => m.task.Resetting?
    case ClearPending => m.task.Finishing?
    case ErrorCycle => m.task.Looping? && m.state == ERROR
    case Initialize => m.task.Looping?
    case ClearAll => m.task.Initializing?
    case WorkerClaims => m.worker.None? && MayClaim(m)
    case WorkerPublishes(_, _, _) => m.worker.Some?
  }

  // ECAT_Init and the error close, section by section.
  function Next(m: Master, e: Event): Master
    requires Enabled(m, e)
  {
    match e
    case Submit(r) => m.(job := if m.job.state.JobIdle? then Submitted(r) else m.job)
    case Collect => m.(job := if m.job.state.Done? then m.job.(state := JobIdle) else m.job)
    case Withdraw(commandPending) => m.(job := Withdrawn(m.job, commandPending).0)
    case Advance(next) => m.(state := next)
    case Open(ok) =>
      if ok then m.(open := true, state := CONFIGURING) else m.(mailbox := false, closePending := true, task := Failing)
    case EnterOperational(ready) => m.(job := BLANK, mailbox := ready, state := OPERATIONAL)
    case Fail => m.(mailbox := false, closePending := true, task := Failing)
    case CommitError => m.(state := ERROR, task := CheckingWorker)
    case ErrorCycle => m.(task := CheckingWorker)
    case CheckWorker =>
      if m.closePending && !m.busy then m.(open := false, task := Closing(m.open)) else m.(task := Looping)
    case CloseContext => m.(task := Resetting)
    case ResetRuntime => m.(job := BLANK, task := Finishing)
    case ClearPending => m.(closePending := false, task := Looping)
    case Initialize =>
      if m.busy || m.closePending || (m.state != IDLE && m.state != ERROR) then m
      else m.(mailbox := false, task := Initializing)
    case ClearAll => m.(job := BLANK, open := false, state := WAIT_LINK, task := Looping)
    case WorkerClaims =>
      m.(job := Claimed(m.job), busy := true,
         worker := Some(Claim(m.job.state.WritePending?, m.job.slave, m.job.index, m.job.data, m.job.size)))
    case WorkerPublishes(data, size, wkc) =>
      m.(job := Published(m.job, m.worker.value.write, data, size, wkc), busy := false, worker := None)
  }

  predicate Run(states: seq<Master>, events: seq<Event>) {
    && |states| == |events| + 1
    && states[0] == BLANK_MASTER
    && forall i :: 0 <= i < |events| ==>
         Enabled(states[i], events[i]) && states[i + 1] == Next(states[i], events[i])
  }

  // ------------------------------------------------------------------ the invariant

  // Sections in which the context or the runtime may be taken apart.
  predicate TakingApart(t: Task) { t.Closing? || t.Resetting? || t.Finishing? || t.Initializing? }

  predicate Inv(m: Master) {
    && (m.busy <==> m.worker.Some?)
    && (m.busy <==> m.job.state.Running?)
    && (m.worker.Some? ==>
          var c := m.worker.value;
          && m.open
          && (m.state == OPERATIONAL || m.state == ERROR)
          && m.job.slave == c.slave && m.job.index == c.index && m.job.data == c.data && m.job.size == c.size)
    && (m.mailbox ==> m.state == OPERATIONAL && !m.closePending)
    && (TakingApart(m.task) ==> !m.busy && !m.mailbox)
    && (m.task.Closing? || m.task.Resetting? || m.task.Finishing? || m.task.CheckingWorker? ==> m.state == ERROR)
    && (m.task.Failing? ==> m.state != ERROR && m.closePending && !m.mailbox)
    && (m.task.Initializing? ==> (m.state == IDLE || m.state == ERROR) && !m.closePending)
    && (m.task.Closing? || m.task.Resetting? || m.task.Finishing? ==> !m.open)
    && (m.state == ERROR ==> !m.mailbox)
    && (m.state == IDLE ==> !m.open)
    && (m.open && m.state == ERROR ==> m.closePending)
    && (m.closePending ==> m.state == ERROR || m.task.Failing?)
    && (m.busy && m.state == ERROR ==> m.closePending)
  }

  lemma StepKeepsInv(m: Master, e: Event)
    requires Inv(m) && Enabled(m, e)
    ensures Inv(Next(m, e))
  {
  }

  lemma {:induction false} RunKeepsInv(states: seq<Master>, events: seq<Event>, k: nat)
    requires Run(states, events) && k < |states|
    ensures Inv(states[k])
    decreases k
  {
    if k > 0 {
      RunKeepsInv(states, events, k - 1);
      hide Inv, Next, Enabled;
      assert Enabled(states[k - 1], events[k - 1]) && states[k] == Next(states[k - 1], events[k - 1]);
      StepKeepsInv(states[k - 1], events[k - 1]);
    }
  }

  // ---------------------------------------------------------------------- the results

  predicate TouchesContext(e: Event) { e.CloseContext? || e.Open? || e.ClearAll? }

  predicate ResetsJob(e: Event) { e.ResetRuntime? || e.ClearAll? || e.EnterOperational? }

  // Between a claim and its publication the master is open and is neither closed, cleared
  // nor reopened, and the job record is not reset, however the two tasks interleave.
  lemma WorkerIsUndisturbed(states: seq<Master>, events: seq<Event>, k: nat)
    requires Run(states, events) && k < |events| && states[k].worker.Some?
    ensures states[k].open
    ensures !TouchesContext(events[k]) && !ResetsJob(events[k])
    ensures !events[k].WorkerPublishes? ==>
      states[k + 1].worker == states[k].worker && states[k + 1].job == states[k].job
  {
    RunKeepsInv(states, events, k);
    assert Enabled(states[k], events[k]) && states[k + 1] == Next(states[k], events[k]);
  }

  // Only the worker takes the slot out of RUNNING, and what it publishes answers the
  // request it claimed.
  lemma OnlyTheWorkerEndsRunning(states: seq<Master>, events: seq<Event>, k: nat)
    requires Run(states, events) && k < |events| && states[k].job.state.Running?
    ensures !states[k + 1].job.state.Running? <==> events[k].WorkerPublishes?
    ensures events[k].WorkerPublishes? ==>
      && states[k].worker.Some? && states[k + 1].job.state.Done?
      && states[k + 1].job.slave == states[k].worker.value.slave
      && states[k + 1].job.index == states[k].worker.value.index
      && (states[k].worker.value.write ==> states[k + 1].job.data == states[k].worker.value.data)
  {
    RunKeepsInv(states, events, k);
    assert Enabled(states[k], events[k]) && states[k + 1] == Next(states[k], events[k]);
  }

  // The close is not lost either: once the worker is idle, the next error cycle closes.
  lemma CloseFollowsTheWorker(m: Master)
    requires Inv(m) && m.state == ERROR && m.task.Looping? && m.closePending && !m.busy
    ensures
      var m1 := Next(m, ErrorCycle);
      var m2 := Next(m1, CheckWorker);
      var m3 := Next(m2, CloseContext);
      var m4 := Next(m3, ResetRuntime);
      var m5 := Next(m4, ClearPending);
      !m2.open && m4.job == BLANK && m5.task.Looping? && !m5.closePending && !m5.open
  {
  }

  // What each section does, of either side.
  predicate Outcome(m: Master, e: Event, m': Master) {
    match e
    case Submit(r) => if m.job.state.JobIdle? then m' == m.(job := Process(m.job, r).0) else m' == m
    case Collect => m' == m.(job := m.job.(state := if m.job.state.Done? then JobIdle else m.job.state))
    case Withdraw(commandPending) =>
      m' == m.(job := if !m.job.state.JobIdle? && (if commandPending then m.job.state.WritePending?
                                                   else !m.job.state.Running?)
                      then m.job.(state := JobIdle) else m.job)
    case Advance(next) => m' == m.(state := next)
    case Open(ok) =>
      if ok then m' == m.(open := true, state := CONFIGURING)
      else m' == m.(mailbox := false, closePending := true, task := Failing)
    case EnterOperational(ready) => m' == m.(job := BLANK, mailbox := ready, state := OPERATIONAL)
    case Fail => m' == m.(mailbox := false, closePending := true, task := Failing)
    case CommitError => m' == m.(state := ERROR, task := CheckingWorker)
    case ErrorCycle => m' == m.(task := CheckingWorker)
    case CheckWorker =>
      // the context is closed only when it was open, with nobody at work
      if m.closePending && m.worker.None? then m' == m.(open := false, task := Closing(m.open))
      else m' == m.(task := Looping)
    case CloseContext => m' == m.(task := Resetting)
    case ResetRuntime => m' == m.(job := BLANK, task := Finishing)
    case ClearPending => m' == m.(closePending := false, task := Looping)
    case Initialize =>
      if m.worker.None? && !m.closePending && (m.state == IDLE || m.state == ERROR)
      then m' == m.(mailbox := false, task := Initializing) else m' == m
    case ClearAll => m' == m.(job := BLANK, open := false, state := WAIT_LINK, task := Looping)
    case WorkerClaims =>
      && m.state == OPERATIONAL && m.open && m.mailbox && !m.busy
      && (m.job.state.ReadPending? || m.job.state.WritePending?)
      && m' == m.(job := m.job.(state := Running), busy := true,
                  worker := Some(Claim(m.job.state.WritePending?, m.job.slave, m.job.index, m.job.data, m.job.size)))
    case WorkerPublishes(_, _, _) => m'.job.state.Done? && m' == m.(job := m'.job, busy := false, worker := None)
  }

  // Over every run each section does exactly this; `busy` is the worker's claim.
  lemma MasterRule(states: seq<Master>, events: seq<Event>, k: nat)
    requires Run(states, events) && k < |events|
    ensures Outcome(states[k], events[k], states[k + 1])
    ensures states[k].busy <==> states[k].worker.Some?
  {
    RunKeepsInv(states, events, k);
    assert Enabled(states[k], events[k]) && states[k + 1] == Next(states[k], events[k]);
    hide Run;
  }

  // ------------------------------------------------------------------- the object

  // One method for each critical section.
  class Ecat {
    var state: MasterState
    var open: bool
    var mailbox: bool
    var busy: bool
    var closePending: bool
    var job: Job

    ghost function Abs(task: Task, worker: Option<Claim>): Master
      reads this
    {
      Master(state, open, mailbox, busy, closePending, job, task, worker)
    }

    constructor ()
      ensures Abs(Looping, None) == BLANK_MASTER
    {
      state, open, mailbox, busy, closePending, job := IDLE, false, false, false, false, BLANK;
    }

    // Under the guard the worker takes the job; otherwise it goes back to sleep.
    method ClaimJob(ghost task: Task) returns (claim: Option<Claim>)
      modifies this`job, this`busy
      ensures claim.Some? <==> MayClaim(old(Abs(task, None)))
      ensures Abs(task, claim) == if claim.Some? then Next(old(Abs(task, None)), WorkerClaims) else old(Abs(task, None))
    {
      claim := None;
      if state == OPERATIONAL && open && mailbox && !busy && IsPending(job) {
        claim := Some(Claim(job.state.WritePending?, job.slave, job.index, job.data, job.size));
        job := job.(state := Running);
        busy := true;
      }
    }

    method PublishJob(claim: Claim, data: U32, size: int, wkc: int, ghost task: Task)
      modifies this`job, this`busy
      ensures Abs(task, None) == Next(old(Abs(task, Some(claim))), WorkerPublishes(data, size, wkc))
    {
      if !claim.write && wkc > 0 {
        job := job.(data := data);
      }
      job := job.(size := size, wkc := wkc, state := Done);
      busy := false;
    }

    method EnterError(ghost worker: Option<Claim>)
      requires state != ERROR
      modifies this`mailbox, this`closePending, this`state
      ensures Abs(CheckingWorker, worker) == Next(Next(old(Abs(Looping, worker)), Fail), CommitError)
    {
      mailbox, closePending := false, true;
      state := ERROR;
    }

    // Which of close and cleanup are to follow outside the critical section.
    method LookAtWorker(ghost worker: Option<Claim>) returns (cleanup: bool, close: bool)
      modifies this`open
      ensures Abs(if cleanup then Closing(close) else Looping, worker) ==
              Next(old(Abs(CheckingWorker, worker)), CheckWorker)
    {
      cleanup, close := false, false;
      if closePending && !busy {
        cleanup := true;
        if open {
          open, close := false, true;
        }
      }
    }

    method Cleanup(ghost worker: Option<Claim>, ghost close: bool)
      modifies this`job, this`closePending
      ensures Abs(Looping, worker) ==
              Next(Next(Next(old(Abs(Closing(close), worker)), CloseContext), ResetRuntime), ClearPending)
    {
      job := BLANK;
      closePending := false;
    }

    method Init(ghost worker: Option<Claim>) returns (done: bool)
      modifies this
      ensures done <==> !old(busy) && !old(closePending) && (old(state) == IDLE || old(state) == ERROR)
      ensures Abs(Looping, worker) ==
              if done then Next(Next(old(Abs(Looping, worker)), Initialize), ClearAll) else old(Abs(Looping, worker))
    {
      if busy || closePending || (state != IDLE && state != ERROR) {
        return false;
      }
      mailbox, closePending := false, false;
      job, open, state := BLANK, false, WAIT_LINK;
      return true;
    }
  }
}
