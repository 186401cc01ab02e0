// How the brakes are released: what each step waits for, over the runs of a session. Stated
// on the reads collected from the drives, on the time that has passed and on the statuswords.
module BrakeRules {
  import opened Words
  import opened Pdo
  import opened SdoSlot
  import opened DriveRuntime
  import opened DriveSession
  import opened DriveRules

  // -------------------------------------------------------------- the reads collected

  // A feedback object as the task collected it.
  datatype Read = Read(slave: nat, index: nat, value: U32)

  // The task collects the answer to a read in this exchange.
  predicate Collects(s: Session, e: Event) {
    && s.alive && e.GoodExchange? && IsBrake(s.rt.drive) && AllShow(e.inputs, 0x004F, 0x0040)
    && (s.rt.brake.step == 3 || s.rt.brake.step == 6 || s.rt.brake.step == 8 || s.rt.brake.step == 11)
    && s.rt.job.state.Done? && s.rt.job.wkc > 0 && 1 <= s.rt.job.size <= 4
  }

  // The bytes that came, the lowest first.
  function Bytes(job: Job): U32 {
    match job.size
    case 1 => job.data % 0x100
    case 2 => job.data % 0x1_0000
    case 3 => job.data % 0x100_0000
    case _ => job.data
  }

  function ReadsAfter(log: seq<Read>, s: Session, e: Event): seq<Read> {
    if Collects(s, e) then log + [Read(s.rt.job.slave, s.rt.job.index, Bytes(s.rt.job))] else log
  }

  function Reads(states: seq<Session>, events: seq<Event>, k: nat): seq<Read>
    requires |states| == |events| + 1 && k < |states|
    decreases k
  {
    if k == 0 then [] else ReadsAfter(Reads(states, events, k - 1), states[k - 1], events[k - 1])
  }

  // The first and the second feedback object of an axis.
  function FirstObject(axis: nat): nat { if axis == 1 then 0x2023 else 0x2033 }

  function SecondObject(axis: nat): nat { if axis == 1 then 0x2024 else 0x2034 }

  // Both objects of this axis, one after the other, showed the value.
  predicate Pair(a: Read, b: Read, slave: nat, axis: nat, value: U32) {
    a == Read(slave, FirstObject(axis), value) && b == Read(slave, SecondObject(axis), value)
  }

  predicate PairAt(log: seq<Read>, i: nat, slave: nat, axis: nat, value: U32) {
    i + 2 <= |log| && Pair(log[i], log[i + 1], slave, axis, value)
  }

  predicate EndsWithPair(log: seq<Read>, slave: nat, axis: nat, value: U32) {
    |log| >= 2 && Pair(log[|log| - 2], log[|log| - 1], slave, axis, value)
  }

  // What a feedback step waits for: opened, cleared, executed, cleared.
  function Awaited(step: nat): U32 { if step == 3 then 0x0030_0000 else if step == 8 then 0x0040_0000 else 0 }

  // The value that must be reported for the n-th time: opened, cleared, executed, cleared.
  function Report(n: nat): U32 { if n == 1 then 0x0030_0000 else if n == 3 then 0x0040_0000 else 0 }

  // The axis has reported opened, cleared, executed, cleared in this order, up to the n-th.
  ghost predicate Reported(log: seq<Read>, slave: nat, axis: nat, n: nat)
    decreases n
  {
    n == 0 || exists i: nat :: PairAt(log, i, slave, axis, Report(n)) && Reported(log[..i], slave, axis, n - 1)
  }

  lemma {:induction false} ReportsStay(log: seq<Read>, more: seq<Read>, slave: nat, axis: nat, n: nat)
    requires Reported(log, slave, axis, n)
    ensures Reported(log + more, slave, axis, n)
  {
    if n > 0 {
      var i: nat :| PairAt(log, i, slave, axis, Report(n)) && Reported(log[..i], slave, axis, n - 1);
      assert (log + more)[..i] == log[..i];
      assert PairAt(log + more, i, slave, axis, Report(n));
    }
  }

  lemma PairReports(log: seq<Read>, a: Read, b: Read, slave: nat, axis: nat, n: nat)
    requires n > 0 && Reported(log, slave, axis, n - 1) && Pair(a, b, slave, axis, Report(n))
    ensures Reported(log + [a, b], slave, axis, n)
  {
    var all := log + [a, b];
    assert all[..|log|] == log && PairAt(all, |log|, slave, axis, Report(n));
  }

  // Reports that must have come before this step.
  function ReportsBefore(step: nat): nat {
    if step <= 3 then 0 else if step <= 6 then 1 else if step <= 8 then 2 else if step <= 11 then 3 else 4
  }

  predicate Waiting(step: nat) { step == 3 || step == 6 || step == 8 || step == 11 }

  // ------------------------------------------------------------------ the invariant

  predicate HalfRead(r: Runtime, log: seq<Read>)
    requires IsBrake(r.drive)
  {
    Waiting(r.brake.step) && r.brake.retry == 1 ==>
      log != [] && log[|log| - 1] == Read(r.brake.slave, FirstObject(AxisOf(r.drive)), r.brake.feedback1)
  }

  // The reports of the current axis; while the second object is read the first one is apart.
  ghost predicate Informed(s: Session, log: seq<Read>) {
    s.alive && IsBrake(s.rt.drive) && IsSlave(s.rt.brake.slave) ==>
      && HalfRead(s.rt, log)
      && Reported(Settled(s, log), s.rt.brake.slave, AxisOf(s.rt.drive), ReportsBefore(s.rt.brake.step))
  }

  function Settled(s: Session, log: seq<Read>): seq<Read> {
    if Waiting(s.rt.brake.step) && s.rt.brake.retry == 1 && log != [] then log[..|log| - 1] else log
  }

  // The axis of the w-th write of the script has reported as often as writes went before it.
  ghost predicate ReportedFor(log: seq<Read>, w: nat) { Reported(log, w % 15 / 5 + 1, w / 15 + 1, w % 5) }

  // A write that may still be claimed belongs to an axis that has reported so much.
  ghost predicate WriteInformed(s: Session, log: seq<Read>) {
    s.rt.job.state.WritePending? && |s.writes| < 30 ==>
      ReportedFor(log, |s.writes|)
  }

  // A read step in detail: nothing, the first object, or the second one.
  predicate ReadsOn(s: Session, e: Event, s': Session) {
    var b, b' := s.rt.brake, s'.rt.brake;
    if !Collects(s, e) then
      && !s'.rt.job.state.WritePending? && (s'.alive ==> b' == b && s'.rt.drive == s.rt.drive)
      // a read that failed ends the session; one that is under way is waited for
      && (s'.alive <==> !s.rt.job.state.Done?)
      && (s.rt.job.state.JobIdle? ==>
            && s'.rt.job.state.ReadPending? && s'.rt.job.slave == b.slave
            && s'.rt.job.index == if b.retry == 0 then FirstObject(AxisOf(s.rt.drive))
                                  else SecondObject(AxisOf(s.rt.drive)))
      && (!s.rt.job.state.JobIdle? && !s.rt.job.state.Done? ==> s'.rt.job == s.rt.job)
    else
      && s.rt.job.slave == b.slave && s'.alive && s'.rt.drive == s.rt.drive && s'.rt.job.state.JobIdle?
      && b'.slave == b.slave
      && if b.retry == 0
         then s.rt.job.index == FirstObject(AxisOf(s.rt.drive)) && b' == b.(feedback1 := Bytes(s.rt.job), retry := 1)
         else && s.rt.job.index == SecondObject(AxisOf(s.rt.drive)) && b'.retry == 0
              && b'.step == if b.feedback1 == Awaited(b.step) && Bytes(s.rt.job) == Awaited(b.step)
                            then b.step + 1 else b.step
  }

  lemma ReadStepHolds(s: Session, e: Event)
    requires Braking(s) && e.GoodExchange? && Waiting(s.rt.brake.step) && AllShow(e.inputs, 0x004F, 0x0040)
    ensures ReadsOn(s, e, Next(s, e))
  {
    Shows(e.inputs, 0x004F, 0x0040);
    hide AllMatch, AllShow, WithControlword, StagesEnable, ModesOk, Commanded, FollowsScript, ModesSoFar,
         BrakeDisturbed, BrakeRelatch, BrakeFinish;
  }

  lemma ReadKeepsInformed(s: Session, e: Event, log: seq<Read>)
    requires Braking(s) && e.GoodExchange? && Waiting(s.rt.brake.step) && AllShow(e.inputs, 0x004F, 0x0040)
    requires Informed(s, log) && s.rt.brake.retry <= 1
    ensures Informed(Next(s, e), ReadsAfter(log, s, e))
    ensures WriteInformed(Next(s, e), ReadsAfter(log, s, e))
  {
    ReadStepHolds(s, e);
    var s', log' := Next(s, e), ReadsAfter(log, s, e);
    var slave, axis, step := s.rt.brake.slave, AxisOf(s.rt.drive), s.rt.brake.step;
    hide Next, Inv, Reported, AllShow;
    if Collects(s, e) {
      var before := Settled(s, log);
      var last := Read(s.rt.job.slave, s.rt.job.index, Bytes(s.rt.job));
      if s.rt.brake.retry == 0 {
        assert log' == log + [last] && Settled(s', log') == log;
      } else {
        var first := log[|log| - 1];
        assert log' == before + [first, last];
        ReportsStay(before, [first, last], slave, axis, ReportsBefore(step));
        if s'.rt.brake.step == step + 1 {
          PairReports(before, first, last, slave, axis, ReportsBefore(step) + 1);
        }
      }
    }
  }

  // ------------------------------------------------------------- the other steps

  // The microseconds of the exchange that last confirmed opened or executed.
  function ConfirmedAt(states: seq<Session>, events: seq<Event>, k: nat): U32
    requires |states| == |events| + 1 && k < |states|
    decreases k
  {
    if k == 0 then 0
    else StillConfirmedAt(ConfirmedAt(states, events, k - 1), states[k - 1], events[k - 1], states[k])
  }

  function StillConfirmedAt(at: U32, s: Session, e: Event, s': Session): U32 {
    if e.GoodExchange? && (s.rt.brake.step == 3 || s.rt.brake.step == 8) && s'.rt.brake.step == s.rt.brake.step + 1
    then e.nowUs else at
  }

  function Elapsed(now: U32, since: U32): nat { if now >= since then now - since else now - since + 0x1_0000_0000 }

  function SlotOf(s: Session): (k: nat)
    requires IsBrake(s.rt.drive) && IsSlave(s.rt.brake.slave)
    ensures k < 6
  {
    2 * (s.rt.brake.slave - 1) + AxisOf(s.rt.drive) - 1
  }

  // A drive has left Switch On Disabled: back to zero if nothing stands in the way, else the
  // session is lost.
  predicate Disturbs(s: Session, s': Session)
    requires IsBrake(s.rt.drive)
  {
    && (s'.alive <==> !CommandOut(s.rt.brake.step) && MayWithdraw(s))
    && (s'.alive ==>
          && ToZero(s') && s'.rt.job.state.JobIdle? && !s'.rt.enableRequest
          && (s.rt.brake.step > 0 ==> IsSlave(s.rt.brake.slave) && s'.rt.image[SlotOf(s)].mode == 8))
  }

  predicate StepsTo(s: Session, s': Session, step: nat) {
    s'.alive && s'.rt.drive == s.rt.drive && s'.rt.brake.step == step
  }

  predicate OnlyAxis(s: Session, s': Session, axis: AxisOut)
    requires IsBrake(s.rt.drive) && IsSlave(s.rt.brake.slave)
  {
    s'.rt.image == s.rt.image[SlotOf(s) := axis]
  }

  // A write step submits its command once, waits, and goes on when all of it was taken.
  predicate WritesOn(s: Session, s': Session, command: U32) {
    var job := s.rt.job;
    match job.state
    case JobIdle =>
      && StepsTo(s, s', s.rt.brake.step) && s'.rt.job.state.WritePending? && s'.rt.job.data == command
      && s'.rt.job.slave == s.rt.brake.slave
      && s'.rt.job.index == (if s.rt.drive == AXIS1_BRAKE_RELEASE then 0x3023 else 0x3033)
    case Done =>
      if job.wkc > 0 && job.size == 4 then StepsTo(s, s', s.rt.brake.step + 1) && s'.rt.job.state.JobIdle?
      else !s'.alive
    case _ => StepsTo(s, s', s.rt.brake.step) && s'.rt.job == job
  }

  predicate WriteStepsOn(s: Session, s': Session) {
    var step := s.rt.brake.step;
    && (step == 2 ==> WritesOn(s, s', 0x1100_0000))
    && (step == 7 ==> WritesOn(s, s', 0x2200_0000))
    && (step == 5 || step == 10 ==> WritesOn(s, s', 0x3300_0000))
    && (step == 12 ==> WritesOn(s, s', 0))
  }

  predicate QuietStepsOn(s: Session, e: Event, confirmed: U32, s': Session)
    requires e.GoodExchange? && IsBrake(s.rt.drive)
  {
    var step, b := s.rt.brake.step, s.rt.brake;
    && (step == 0 ==> StepsTo(s, s', 1) && s'.rt.brake.slave == 1 && s'.rt.image == s.rt.image)
    && (step == 1 ==> StepsTo(s, s', 2) && IsSlave(b.slave) && OnlyAxis(s, s', s.rt.image[SlotOf(s)].(mode := 11)))
    && (step == 4 || step == 9 ==>
          StepsTo(s, s', if Elapsed(e.nowUs, confirmed) >= 10000 then step + 1 else step) && s'.rt.image == s.rt.image)
    && (step == 13 ==>
          && StepsTo(s, s', 14) && IsSlave(b.slave)
          && OnlyAxis(s, s', s.rt.image[SlotOf(s)].(mode := 8, target := e.inputs[SlotOf(s)].position)))
    && (step == 14 ==>
          && s'.alive && IsSlave(b.slave)
          && OnlyAxis(s, s', s.rt.image[SlotOf(s)].(target := e.inputs[SlotOf(s)].position))
          && if b.slave < 3 then StepsTo(s, s', 1) && s'.rt.brake.slave == b.slave + 1
             else s'.rt.brake.step == 0 && s'.rt.drive == if s.rt.drive == AXIS1_BRAKE_RELEASE
                                                          then AXIS2_BRAKE_RELEASE else CW06_WAIT_DELAY)
  }

  // A good exchange among the brakes does exactly this.
  predicate Releases(s: Session, e: Event, confirmed: U32, s': Session)
    requires e.GoodExchange? && IsBrake(s.rt.drive)
  {
    if !AllShow(e.inputs, 0x004F, 0x0040) then Disturbs(s, s')
    else
      && (Waiting(s.rt.brake.step) ==> ReadsOn(s, e, s'))
      && WriteStepsOn(s, s') && QuietStepsOn(s, e, confirmed, s')
  }

  lemma DisturbHolds(s: Session, e: Event)
    requires Braking(s) && e.GoodExchange? && !AllShow(e.inputs, 0x004F, 0x0040)
    ensures Disturbs(s, Next(s, e))
  {
    Shows(e.inputs, 0x004F, 0x0040);
    ZeroKeepsModes();
    hide AllMatch, AllShow, StagesEnable, ModesOk, Commanded, FollowsScript, ModesSoFar, BrakeWrite, BrakeRead,
         BrakeRelatch, BrakeFinish;
  }

  lemma ZeroKeepsModes()
    ensures forall image: Image :: AllControlwords(WithControlword(image, 0x0000), 0x0000)
    ensures forall image: Image, k :: 0 <= k < 6 ==> WithControlword(image, 0x0000)[k].mode == image[k].mode
  {
  }

  lemma WriteStepHolds(s: Session, e: Event)
    requires Braking(s) && e.GoodExchange? && IsWriteStep(s.rt.brake.step) && AllShow(e.inputs, 0x004F, 0x0040)
    ensures WriteStepsOn(s, Next(s, e))
  {
    Shows(e.inputs, 0x004F, 0x0040);
    hide AllMatch, AllShow, WithControlword, StagesEnable, ModesOk, Commanded, FollowsScript, ModesSoFar,
         BrakeDisturbed, BrakeRelatch, BrakeFinish, BrakeRead;
  }

  lemma QuietStepHolds(s: Session, e: Event, confirmed: U32)
    requires Braking(s) && e.GoodExchange? && AllShow(e.inputs, 0x004F, 0x0040)
    requires s.rt.brake.step == 4 || s.rt.brake.step == 9 ==> s.rt.brake.waitStart == confirmed
    ensures QuietStepsOn(s, e, confirmed, Next(s, e))
  {
    Shows(e.inputs, 0x004F, 0x0040);
    hide AllMatch, AllShow, WithControlword, StagesEnable, ModesOk, Commanded, FollowsScript, ModesSoFar,
         BrakeDisturbed, BrakeRead, BrakeWrite;
  }

  // -------------------------------------------------------------- over whole runs

  ghost predicate Told(s: Session, log: seq<Read>, confirmed: U32) {
    && Informed(s, log) && WriteInformed(s, log)
    && (s.alive && IsBrake(s.rt.drive) && (s.rt.brake.step == 4 || s.rt.brake.step == 9) ==>
          s.rt.brake.waitStart == confirmed)
  }

  lemma ReadKeepsTime(s: Session, e: Event, confirmed: U32)
    requires Braking(s) && e.GoodExchange? && Waiting(s.rt.brake.step) && AllShow(e.inputs, 0x004F, 0x0040)
    ensures
      var s' := Next(s, e);
      s'.alive && (s'.rt.brake.step == 4 || s'.rt.brake.step == 9) ==>
        s'.rt.brake.waitStart == StillConfirmedAt(confirmed, s, e, s')
  {
    Shows(e.inputs, 0x004F, 0x0040);
    hide AllMatch, AllShow, WithControlword, StagesEnable, ModesOk, Commanded, FollowsScript, ModesSoFar,
         BrakeDisturbed, BrakeRelatch, BrakeFinish, Process;
  }

  // Going on within an axis without a read asks for no more reports than were seen.
  lemma GoingOnKeepsInformed(s: Session, s': Session, log: seq<Read>)
    requires s.alive && IsBrake(s.rt.drive) && !Waiting(s.rt.brake.step) && Informed(s, log)
    requires s'.rt.drive == s.rt.drive && s'.rt.brake.slave == s.rt.brake.slave
    requires ReportsBefore(s'.rt.brake.step) == ReportsBefore(s.rt.brake.step)
    requires Waiting(s'.rt.brake.step) ==> s'.rt.brake.retry == 0
    ensures Informed(s', log)
  {
    hide Reported;
  }

  // A new slave or axis owes no report yet.
  lemma BeginningIsInformed(s: Session, log: seq<Read>)
    requires s.alive && IsBrake(s.rt.drive) ==> s.rt.brake.step <= 1
    ensures Informed(s, log)
  {
  }

  lemma WriteStepInforms(s: Session, e: Event, log: seq<Read>)
    requires Braking(s) && e.GoodExchange? && IsWriteStep(s.rt.brake.step) && AllShow(e.inputs, 0x004F, 0x0040)
    requires Informed(s, log) && WriteInformed(s, log)
    ensures Informed(Next(s, e), log) && WriteInformed(Next(s, e), log)
  {
    assert IsSlave(s.rt.brake.slave) && !Waiting(s.rt.brake.step) by { hide AxesBefore, WritesBefore, ModesSoFar; }
    hide Next, AllShow, Inv, Informed, WriteInformed;
    WriteStepKeepsSlot(s, e);
    WritingInforms(s, Next(s, e), log);
  }

  lemma WritingInforms(s: Session, s': Session, log: seq<Read>)
    requires s.alive && IsBrake(s.rt.drive) && IsSlave(s.rt.brake.slave) && !Waiting(s.rt.brake.step)
    requires Informed(s, log) && WriteInformed(s, log) && WritesWithin(s, s')
    ensures Informed(s', log) && WriteInformed(s', log)
  {
    hide Reported;
    if s'.alive {
      GoingOnKeepsInformed(s, s', log);
    }
  }

  // A write step stays or goes on within its axis, and submits only from its place in the script.
  predicate WritesWithin(s: Session, s': Session)
    requires IsBrake(s.rt.drive)
  {
    var b, b' := s.rt.brake, s'.rt.brake;
    && s'.writes == s.writes
    && (s'.alive ==>
          && s'.rt.drive == s.rt.drive && b'.slave == b.slave && ReportsBefore(b'.step) == ReportsBefore(b.step)
          && (Waiting(b'.step) ==> b'.retry == 0))
    && (s'.rt.job.state.WritePending? ==>
          || s.rt.job.state.WritePending?
          || (|s.writes| % 5 == ReportsBefore(b.step)
              && |s.writes| % 15 / 5 + 1 == b.slave && |s.writes| / 15 + 1 == AxisOf(s.rt.drive)))
  }

  lemma QuietStepInforms(s: Session, e: Event, log: seq<Read>)
    requires Braking(s) && e.GoodExchange? && AllShow(e.inputs, 0x004F, 0x0040)
    requires !IsWriteStep(s.rt.brake.step) && !Waiting(s.rt.brake.step) && s.rt.brake.step <= 14
    requires Informed(s, log)
    ensures Informed(Next(s, e), log) && WriteInformed(Next(s, e), log)
  {
    var s' := Next(s, e);
    QuietStepHolds(s, e, s.rt.brake.waitStart);
    QuietStepKeepsSlot(s, e);
    hide Next, Reported, AllShow, Inv, OnlyAxis;
    if s.rt.brake.step == 0 || s.rt.brake.step == 14 {
      BeginningIsInformed(s', log);
    } else {
      GoingOnKeepsInformed(s, s', log);
    }
    hide Informed;
  }

  lemma DisturbInforms(s: Session, e: Event, log: seq<Read>)
    requires Braking(s) && e.GoodExchange? && !AllShow(e.inputs, 0x004F, 0x0040)
    requires WriteInformed(s, log)
    ensures Informed(Next(s, e), log) && WriteInformed(Next(s, e), log)
  {
    DisturbKeepsSlot(s, e);
    hide Next, Reported, AllShow, Inv;
  }

  lemma DisturbKeepsSlot(s: Session, e: Event)
    requires Braking(s) && e.GoodExchange? && !AllShow(e.inputs, 0x004F, 0x0040)
    ensures
      var s' := Next(s, e);
      && s'.writes == s.writes && (s'.rt.job.state.WritePending? ==> s'.rt.job == s.rt.job)
      && (s'.alive ==> !IsBrake(s'.rt.drive))
  {
    Shows(e.inputs, 0x004F, 0x0040);
    hide AllMatch, AllShow, StagesEnable, ModesOk, Commanded, FollowsScript, ModesSoFar, BrakeWrite, BrakeRead,
         BrakeRelatch, BrakeFinish, WithControlword;
  }

  // The place of a write step in the script.
  lemma ScriptPlace(axis: nat, b: Brake, written: nat)
    requires 1 <= axis <= 2 && IsSlave(b.slave) && IsWriteStep(b.step)
    requires written == 5 * AxesBefore(axis, b) + WritesBefore(b.step)
    ensures written % 5 == ReportsBefore(b.step)
    ensures written % 15 / 5 + 1 == b.slave && written / 15 + 1 == axis
  {
  }

  lemma WriteStepKeepsSlot(s: Session, e: Event)
    requires Braking(s) && e.GoodExchange? && IsWriteStep(s.rt.brake.step) && AllShow(e.inputs, 0x004F, 0x0040)
    ensures WritesWithin(s, Next(s, e))
  {
    if s.rt.job.state.JobIdle? {
      ScriptPlace(AxisOf(s.rt.drive), s.rt.brake, |s.writes|);
    }
    Shows(e.inputs, 0x004F, 0x0040);
    hide AllMatch, AllShow, WithControlword, StagesEnable, ModesOk, Commanded, FollowsScript, ModesSoFar,
         BrakeDisturbed, BrakeRelatch, BrakeFinish, BrakeRead, AxesBefore, WritesBefore;
  }

  lemma QuietStepKeepsSlot(s: Session, e: Event)
    requires Braking(s) && e.GoodExchange? && AllShow(e.inputs, 0x004F, 0x0040)
    requires !IsWriteStep(s.rt.brake.step) && !Waiting(s.rt.brake.step)
    ensures
      var s' := Next(s, e);
      && s'.writes == s.writes && !s'.rt.job.state.WritePending?
      && (1 <= s'.rt.brake.step < 14 && s.rt.brake.step != 0 && s.rt.brake.step != 14 ==>
            s'.rt.brake.slave == s.rt.brake.slave)
      && !Waiting(s'.rt.brake.step)
  {
    Shows(e.inputs, 0x004F, 0x0040);
    hide AllMatch, AllShow, WithControlword, StagesEnable, ModesOk, Commanded, FollowsScript, ModesSoFar,
         BrakeDisturbed, BrakeWrite, BrakeRead;
  }

  lemma GoodBrakeInforms(s: Session, e: Event, log: seq<Read>)
    requires Braking(s) && e.GoodExchange? && Informed(s, log) && WriteInformed(s, log)
    ensures Informed(Next(s, e), ReadsAfter(log, s, e)) && WriteInformed(Next(s, e), ReadsAfter(log, s, e))
  {
    assert s.rt.brake.step <= 14 && s.rt.brake.retry <= 1 by { hide AxesBefore, WritesBefore, ModesSoFar; }
    hide Next, Informed, WriteInformed, AllShow, BrakeOk, Inv;
    if !AllShow(e.inputs, 0x004F, 0x0040) {
      DisturbInforms(s, e, log);
    } else if Waiting(s.rt.brake.step) {
      ReadKeepsInformed(s, e, log);
    } else if IsWriteStep(s.rt.brake.step) {
      WriteStepInforms(s, e, log);
    } else {
      QuietStepInforms(s, e, log);
    }
  }

  // Past the brakes, after a failure and between exchanges nothing is read or submitted.
  lemma OtherInforms(s: Session, e: Event, log: seq<Read>)
    requires Inv(s) && Enabled(s, e) && Informed(s, log) && WriteInformed(s, log)
    requires !e.GoodExchange? || !IsBrake(s.rt.drive)
    ensures Informed(Next(s, e), log) && WriteInformed(Next(s, e), log)
  {
    hide Next, Inv, Enabled, Informed, WriteInformed;
    SlotOutsideBrakes(s, e);
    KeptInforms(s, Next(s, e), log);
  }

  lemma KeptInforms(s: Session, s': Session, log: seq<Read>)
    requires Informed(s, log) && WriteInformed(s, log)
    requires s'.rt.job.state.WritePending? ==> s.rt.job.state.WritePending? && s'.writes == s.writes
    requires s'.alive && IsBrake(s'.rt.drive) ==>
               s.alive && IsBrake(s.rt.drive) && s'.rt.drive == s.rt.drive && s'.rt.brake == s.rt.brake
    ensures Informed(s', log) && WriteInformed(s', log)
  {
    hide Reported;
  }

  lemma SlotOutsideBrakes(s: Session, e: Event)
    requires Inv(s) && Enabled(s, e) && (!e.GoodExchange? || !IsBrake(s.rt.drive))
    ensures
      var s' := Next(s, e);
      && (s'.rt.job.state.WritePending? ==> s.rt.job.state.WritePending? && s'.writes == s.writes)
      && (s'.alive && IsBrake(s'.rt.drive) ==>
            s.alive && IsBrake(s.rt.drive) && s'.rt.drive == s.rt.drive && s'.rt.brake == s.rt.brake)
  {
    if e.GoodExchange? && s.alive {
      HandleKeeps(s.(rt := s.rt.(badWkc := 0)), e.inputs, e.nowUs, e.motion);
      hide Handle, FollowsScript, Commanded, ModesOk, WithControlword, StagesEnable, PassesEnableCheck;
    } else {
      hide WithControlword, StagesEnable, ModesOk, Commanded, FollowsScript, ModesSoFar;
    }
  }

  lemma TimeStays(s: Session, e: Event)
    requires Inv(s) && Enabled(s, e)
    requires !(Braking(s) && e.GoodExchange? && Waiting(s.rt.brake.step) && AllShow(e.inputs, 0x004F, 0x0040))
    ensures
      var s' := Next(s, e);
      s'.alive && IsBrake(s'.rt.drive) && (s'.rt.brake.step == 4 || s'.rt.brake.step == 9) ==>
        s.alive && IsBrake(s.rt.drive) && s'.rt.brake == s.rt.brake
  {
    if Braking(s) && e.GoodExchange? {
      Shows(e.inputs, 0x004F, 0x0040);
      hide AllMatch, AllShow, WithControlword, StagesEnable, ModesOk, Commanded, FollowsScript, ModesSoFar, Process,
           Withdrawn;
    } else {
      SlotOutsideBrakes(s, e);
      hide Next;
    }
  }

  lemma StepTells(s: Session, e: Event, log: seq<Read>, confirmed: U32)
    requires Inv(s) && Enabled(s, e) && Told(s, log, confirmed)
    ensures Told(Next(s, e), ReadsAfter(log, s, e), StillConfirmedAt(confirmed, s, e, Next(s, e)))
  {
    hide Next, Inv, Informed, WriteInformed, AllShow;
    if Braking(s) && e.GoodExchange? {
      GoodBrakeInforms(s, e, log);
    } else {
      assert !Collects(s, e);
      OtherInforms(s, e, log);
    }
    if Braking(s) && e.GoodExchange? && Waiting(s.rt.brake.step) && AllShow(e.inputs, 0x004F, 0x0040) {
      ReadKeepsTime(s, e, confirmed);
    } else {
      TimeStays(s, e);
    }
    hide Enabled;
  }

  lemma StartIsTold(image: Image)
    ensures Told(Start(image), [], 0)
  {
  }

  lemma {:induction false} RunIsTold(states: seq<Session>, events: seq<Event>, k: nat)
    requires Run(states, events) && k < |states|
    ensures Told(states[k], Reads(states, events, k), ConfirmedAt(states, events, k))
    decreases k
  {
    hide Inv, Next, Enabled, Told, ReadsAfter, StillConfirmedAt, AllControlwords, Start;
    if k == 0 {
      StartIsTold(states[0].rt.image);
    } else {
      RunIsTold(states, events, k - 1);
      RunKeepsInv(states, events, k - 1);
      assert Enabled(states[k - 1], events[k - 1]) && states[k] == Next(states[k - 1], events[k - 1]);
      StepTells(states[k - 1], events[k - 1], Reads(states, events, k - 1), ConfirmedAt(states, events, k - 1));
    }
  }

  // ------------------------------------------------------------------- the results

  // Each good exchange among the brakes does what its step says: the way out when a drive is
  // disturbed, the reads, the commands, the waits of ten milliseconds and the mode changes.
  lemma BrakeExchangeRule(states: seq<Session>, events: seq<Event>, k: nat)
    requires Run(states, events) && k < |events| && events[k].GoodExchange?
    requires states[k].alive && IsBrake(states[k].rt.drive)
    ensures Releases(states[k], events[k], ConfirmedAt(states, events, k), states[k + 1])
  {
    RunKeepsInv(states, events, k);
    RunIsTold(states, events, k);
    var s, e := states[k], events[k];
    assert Enabled(s, e) && states[k + 1] == Next(s, e);
    hide Run, Next, Inv, Disturbs, ReadsOn, WriteStepsOn, QuietStepsOn, AllShow, Informed, WriteInformed;
    if !AllShow(e.inputs, 0x004F, 0x0040) {
      DisturbHolds(s, e);
    } else {
      QuietStepHolds(s, e, ConfirmedAt(states, events, k));
      if Waiting(s.rt.brake.step) {
        ReadStepHolds(s, e);
        NoWriteHolds(s, Next(s, e));
      } else if IsWriteStep(s.rt.brake.step) {
        WriteStepHolds(s, e);
      } else {
        NoWriteHolds(s, Next(s, e));
      }
    }
  }

  lemma NoWriteHolds(s: Session, s': Session)
    requires !IsWriteStep(s.rt.brake.step)
    ensures WriteStepsOn(s, s')
  {
  }

  // A feedback wait is left exactly when the two reads collected last are of the axis's first
  // and second feedback object and both show the awaited value. Any other pair keeps it.
  lemma FeedbackIsAwaited(states: seq<Session>, events: seq<Event>, k: nat)
    requires Run(states, events) && k < |events| && events[k].GoodExchange?
    requires states[k].alive && IsBrake(states[k].rt.drive) && AllShow(events[k].inputs, 0x004F, 0x0040)
    requires Waiting(states[k].rt.brake.step) && states[k + 1].alive
    ensures
      var s, s' := states[k], states[k + 1];
      var slave, axis := s.rt.brake.slave, AxisOf(s.rt.drive);
      && s'.rt.drive == s.rt.drive && s'.rt.brake.slave == slave
      && s'.rt.brake.step == if Collects(s, events[k])
                                && EndsWithPair(Reads(states, events, k + 1), slave, axis, Awaited(s.rt.brake.step))
                             then s.rt.brake.step + 1 else s.rt.brake.step
  {
    RunKeepsInv(states, events, k);
    RunIsTold(states, events, k);
    var s, e := states[k], events[k];
    assert Enabled(s, e) && states[k + 1] == Next(s, e);
    hide Run, Next, Inv, AllShow, Informed, WriteInformed, Collects, EndsWithPair;
    FeedbackHolds(s, e, Reads(states, events, k));
  }

  lemma FeedbackHolds(s: Session, e: Event, log: seq<Read>)
    requires Braking(s) && e.GoodExchange? && AllShow(e.inputs, 0x004F, 0x0040) && Waiting(s.rt.brake.step)
    requires Informed(s, log) && Next(s, e).alive
    ensures
      var s', slave, axis := Next(s, e), s.rt.brake.slave, AxisOf(s.rt.drive);
      && s'.rt.drive == s.rt.drive && s'.rt.brake.slave == slave
      && s'.rt.brake.step == if Collects(s, e) && EndsWithPair(ReadsAfter(log, s, e), slave, axis,
                                                               Awaited(s.rt.brake.step))
                             then s.rt.brake.step + 1 else s.rt.brake.step
  {
    assert s.rt.brake.retry <= 1 && IsSlave(s.rt.brake.slave) by { hide AxesBefore, WritesBefore, ModesSoFar; }
    ReadStepHolds(s, e);
    hide Next, Inv, AllShow, Reported, EndsWithPair, ReadsAfter;
    if Collects(s, e) {
      PairOfReads(s, e, log);
    }
  }

  lemma PairOfReads(s: Session, e: Event, log: seq<Read>)
    requires s.alive && IsBrake(s.rt.drive) && e.GoodExchange? && Waiting(s.rt.brake.step) && s.rt.brake.retry <= 1
    requires HalfRead(s.rt, log) && Collects(s, e) && s.rt.job.slave == s.rt.brake.slave
    requires s.rt.job.index == if s.rt.brake.retry == 0 then FirstObject(AxisOf(s.rt.drive))
                               else SecondObject(AxisOf(s.rt.drive))
    ensures EndsWithPair(ReadsAfter(log, s, e), s.rt.brake.slave, AxisOf(s.rt.drive), Awaited(s.rt.brake.step)) <==>
            && s.rt.brake.retry == 1
            && s.rt.brake.feedback1 == Awaited(s.rt.brake.step) && Bytes(s.rt.job) == Awaited(s.rt.brake.step)
  {
  }

  // No command outruns the feedback. The writes of an axis are open, clear, execute, clear,
  // zero; each is claimed only after the axis has reported, in turn and on both objects, what
  // the writes before it asked for: opened, cleared, executed, cleared.
  lemma CommandsFollowFeedback(states: seq<Session>, events: seq<Event>, k: nat)
    requires Run(states, events) && k < |events| && events[k].WorkerClaims? && states[k].rt.job.state.WritePending?
    ensures
      var w := |states[k].writes|;
      && w < 30 && states[k + 1].writes == states[k].writes + [Script(w)]
      && ReportedFor(Reads(states, events, k), w)
  {
    RunKeepsInv(states, events, k);
    RunIsTold(states, events, k);
    assert Enabled(states[k], events[k]) && states[k + 1] == Next(states[k], events[k]);
    hide Run, Inv, Informed, ReportedFor, Script, Next, Enabled, WriteInformed;
    ClaimHolds(states[k], Reads(states, events, k));
  }

  lemma ClaimHolds(s: Session, log: seq<Read>)
    requires Inv(s) && Enabled(s, WorkerClaims) && s.rt.job.state.WritePending? && WriteInformed(s, log)
    ensures
      var w := |s.writes|;
      && w < 30 && Next(s, WorkerClaims).writes == s.writes + [Script(w)]
      && Write(s.rt.job.slave, s.rt.job.index, s.rt.job.data) == Script(w)
      && ReportedFor(log, w)
  {
    PendingFollowsScript(s);
    hide Inv, ReportedFor, Script;
  }

  // The axis reported opened and, later, cleared.
  ghost predicate OpenedThenCleared(log: seq<Read>, slave: nat, axis: nat) {
    exists i: nat, j: nat ::
      i + 2 <= j && PairAt(log, i, slave, axis, 0x0030_0000) && PairAt(log, j, slave, axis, 0)
  }

  // So the brake is executed only after the axis has reported opened and then cleared.
  lemma ExecuteNeedsOpened(states: seq<Session>, events: seq<Event>, k: nat)
    requires Run(states, events) && k < |events| && events[k].WorkerClaims? && states[k].rt.job.state.WritePending?
    requires states[k].rt.job.data == 0x2200_0000
    ensures
      var job := states[k].rt.job;
      && (job.index == 0x3023 || job.index == 0x3033)
      && OpenedThenCleared(Reads(states, events, k), job.slave, if job.index == 0x3023 then 1 else 2)
  {
    RunKeepsInv(states, events, k);
    RunIsTold(states, events, k);
    assert Enabled(states[k], events[k]);
    hide Run, Inv, Informed, Next, Enabled, OpenedThenCleared, WriteInformed, ReportedFor, Script;
    ClaimHolds(states[k], Reads(states, events, k));
    ExecuteIsThird(Reads(states, events, k), states[k].rt.job, |states[k].writes|);
  }

  lemma ExecuteIsThird(log: seq<Read>, job: Job, w: nat)
    requires w < 30 && Write(job.slave, job.index, job.data) == Script(w) && job.data == 0x2200_0000
    requires ReportedFor(log, w)
    ensures job.index == 0x3023 || job.index == 0x3033
    ensures OpenedThenCleared(log, job.slave, if job.index == 0x3023 then 1 else 2)
  {
    assert w % 5 == 2 && w / 15 <= 1;
    TwoReports(log, w % 15 / 5 + 1, w / 15 + 1);
    hide OpenedThenCleared, Reported;
  }

  lemma TwoReports(log: seq<Read>, slave: nat, axis: nat)
    requires Reported(log, slave, axis, 2)
    ensures OpenedThenCleared(log, slave, axis)
  {
    var j: nat :| PairAt(log, j, slave, axis, Report(2)) && Reported(log[..j], slave, axis, 1);
    var i: nat :| PairAt(log[..j], i, slave, axis, Report(1)) && Reported(log[..j][..i], slave, axis, 0);
    hide Reported;
    assert PairAt(log, i, slave, axis, 0x0030_0000);
  }
}
