// The single asynchronous SDO job: the EtherCAT task submits and collects, a
// low-priority worker claims and publishes, each inside a critical section.
module SdoSlot {
  import opened Words

  datatype JobState = JobIdle | ReadPending | WritePending | Running | Done

  // The sub-index is always zero. `data` holds the four wire bytes, lowest first.
  datatype Job = Job(state: JobState, slave: nat, index: nat, data: U32, size: int, wkc: int)

  const BLANK := Job(JobIdle, 0, 0, 0, 0, 0)

  const DATA_SIZE := 4

  datatype Request = Request(write: bool, slave: nat, index: nat, data: U32)

  datatype Answer = Wait | Complete(value: U32) | Failed

  predicate IsPending(job: Job) { job.state.ReadPending? || job.state.WritePending? }

  function Submitted(r: Request): Job {
    Job(if r.write then WritePending else ReadPending, r.slave, r.index, if r.write then r.data else 0, DATA_SIZE, 0)
  }

  // The first `size` bytes, the rest zero.
  function Truncated(data: U32, size: int): U32 {
    if size == 1 then data % 0x100
    else if size == 2 then data % 0x1_0000
    else if size == 3 then data % 0x100_0000
    else data
  }

  function Collected(job: Job, r: Request): Answer {
    if job.slave != r.slave || job.index != r.index || job.wkc <= 0 then Failed
    else if !r.write then
      if 0 < job.size <= DATA_SIZE then Complete(Truncated(job.data, job.size)) else Failed
    else if job.size == DATA_SIZE && job.data == r.data then Complete(job.data) else Failed
  }

  // One call by the EtherCAT task: submit, keep waiting, or collect.
  function Process(job: Job, r: Request): (Job, Answer) {
    match job.state
    case JobIdle => (Submitted(r), Wait)
    case Done => (job.(state := JobIdle), Collected(job, r))
    case _ => (job, Wait)
  }

  // Withdraw the job for a rollback. A write that may have reached the drive is never
  // withdrawn, and a running job never is.
  function Withdrawn(job: Job, commandPending: bool): (Job, bool) {
    if job.state.JobIdle? then (job, true)
    else if commandPending then
      if job.state.WritePending? then (job.(state := JobIdle), true) else (job, false)
    else if job.state.Running? then (job, false)
    else (job.(state := JobIdle), true)
  }

  function Claimed(job: Job): Job { job.(state := Running) }

  // `write` is the operation the worker remembered when it claimed the job.
  function Published(job: Job, write: bool, data: U32, size: int, wkc: int): Job {
    job.(state := Done, data := if !write && wkc > 0 then data else job.data, size := size, wkc := wkc)
  }

  // The job is this request's, in some stage.
  predicate Serves(job: Job, r: Request) {
    job.slave == r.slave && job.index == r.index
    && (r.write ==> job.data == r.data && !job.state.ReadPending?)
    && (!r.write ==> !job.state.WritePending?)
  }

  // From submission to collection the slot keeps serving the same request, whatever the
  // worker answers, so a completion is never taken for another request's.
  lemma SlotServesOneRequest(job: Job, r: Request, data: U32, size: int, wkc: int)
    requires job.state.JobIdle? || Serves(job, r)
    ensures Serves(Process(job, r).0, r)
    ensures IsPending(job) ==> Serves(Claimed(job), r)
    ensures job.state.Running? ==> Serves(Published(job, r.write, data, size, wkc), r)
    ensures Process(job, r).1.Complete? && r.write ==> job.state.Done? && job.data == r.data && job.wkc > 0
  {
  }

  // What the worker published for a claimed request is what the task then collects. A read
  // completes if the exchange counted and one to four bytes came, with just those bytes, low
  // byte first; a write completes if the exchange counted and all four bytes of this very
  // request are still on record. Everything else fails, and the slot is free again.
  lemma CompletionIsExact(job: Job, r: Request, data: U32, size: int, wkc: int)
    requires Serves(job, r) && job.state.Running?
    ensures
      var (job', answer) := Process(Published(job, r.write, data, size, wkc), r);
      && job'.state.JobIdle?
      && answer == if wkc <= 0 then Failed
                   else if r.write then (if size == 4 then Complete(r.data) else Failed)
                   else match size
                        case 1 => Complete(data % 0x100)
                        case 2 => Complete(data % 0x1_0000)
                        case 3 => Complete(data % 0x100_0000)
                        case 4 => Complete(data)
                        case _ => Failed
  {
  }

  // A record of another request is never taken for this one's completion.
  lemma OthersNeverComplete(job: Job, r: Request)
    requires job.slave != r.slave || job.index != r.index || (r.write && job.data != r.data)
    ensures !Process(job, r).1.Complete?
  {
  }

  // An idle slot takes the request with four bytes, zero for a read; a slot in use keeps its
  // record, and a publication leaves a write's bytes, and those of a failed read, alone.
  lemma RecordIsKept(job: Job, r: Request, write: bool, data: U32, size: int, wkc: int)
    ensures job.state.JobIdle? ==>
              Process(job, r) == (Job(if r.write then WritePending else ReadPending, r.slave, r.index,
                                      if r.write then r.data else 0, 4, 0), Wait)
    ensures IsPending(job) || job.state.Running? ==> Process(job, r) == (job, Wait)
    ensures
      var done := Published(job, write, data, size, wkc);
      && done.state.Done? && done.slave == job.slave && done.index == job.index && done.size == size && done.wkc == wkc
      && done.data == if write || wkc <= 0 then job.data else data
  {
  }

  // Withdrawing for a rollback: never a running job, and never a command the worker may have
  // passed on; everything else leaves the slot idle.
  lemma WithdrawalIsSafe(job: Job, commandPending: bool)
    ensures
      var (job', idle) := Withdrawn(job, commandPending);
      && (idle <==> job.state.JobIdle? || if commandPending then job.state.WritePending? else !job.state.Running?)
      && job' == if idle then job.(state := JobIdle) else job
  {
  }
}
