// What each drive state makes of an exchange, over the runs of a session: stated on the
// statuswords that came in, on how long the state has waited, and on the controlwords that
// go out.
module DriveRules {
  import opened Words
  import opened Pdo
  import opened SdoSlot
  import opened DriveRuntime
  import opened DriveSession

  // -------------------------------------------------------------------- what came in

  predicate AllShow(inputs: Inputs, mask: bv16, value: bv16) {
    forall i :: 0 <= i < 6 ==> inputs[i].statusword & mask == value
  }

  predicate SomeFault(inputs: Inputs) { exists i :: 0 <= i < 6 && inputs[i].statusword & 0x0008 != 0 }

  // Every axis is relatched and at rest, in mode 8, without fault or error.
  predicate AtRest(image: Image, inputs: Inputs) {
    && AllShow(inputs, 0x006F, 0x0023)
    && forall i :: 0 <= i < 6 ==>
         && image[i].controlword == 0x0007 && image[i].mode == 8 && inputs[i].modeDisplay == 8
         && inputs[i].errorCode == 0 && image[i].torque == 0 && image[i].feedForward == 0
         && -1 <= image[i].target - inputs[i].position <= 1 && -1 <= inputs[i].velocity <= 1
  }

  predicate InMode8(image: Image, inputs: Inputs) {
    forall i :: 0 <= i < 6 ==> image[i].mode == 8 && inputs[i].modeDisplay == 8
  }

  // ---------------------------------------------------------------- how long it waited

  predicate Waits(d: Drive) {
    || d == CW06_WAIT_DELAY || d == CW06_WAIT_READY || d == CW06_DONE || d == CW07_WAIT_SWITCHED_ON
    || d == CW07_DONE || d == CW0F_WAIT_TARGET_STABLE || d == CW0F_WAIT_OPERATION_ENABLED || d == CW0F_ROLLBACK_CW07
  }

  // Good exchanges in a row that left the drive state as it was without what it waits for; a
  // third bad exchange starts the count again, and so does a good status in CW07_DONE.
  function Waited(states: seq<Session>, events: seq<Event>, k: nat): nat
    requires |states| == |events| + 1 && k < |states|
    decreases k
  {
    if k == 0 then 0
    else StillWaited(Waited(states, events, k - 1), states[k - 1], events[k - 1], states[k])
  }

  function StillWaited(waited: nat, s: Session, e: Event, s': Session): nat {
    if s'.rt.drive != s.rt.drive then 0
    else
      match e
      case GoodExchange(inputs, _, _) =>
        if s.rt.drive == CW07_DONE && AllShow(inputs, 0x006F, 0x0023) then 0 else waited + 1
      case BadExchange => if s'.rt.badWkc >= 3 then 0 else waited
      case _ => waited
  }

  // ------------------------------------------------------------------- what goes out

  predicate Same(s: Session, s': Session) {
    s'.alive && s'.rt.drive == s.rt.drive && s'.rt.image == s.rt.image
  }

  predicate GoesTo(s': Session, drive: Drive, controlword: U16) {
    s'.alive && s'.rt.drive == drive && AllControlwords(s'.rt.image, controlword)
  }

  predicate ToZero(s': Session) { GoesTo(s', CW06_ROLLBACK_ZERO, 0x0000) }

  predicate Moved(s: Session, s': Session, drive: Drive) {
    s'.alive && s'.rt.drive == drive && s'.rt.image == s.rt.image
  }

  // Operation Enabled was lost: by a fault to zero, otherwise back to Switched On.
  predicate Dropped(s': Session, inputs: Inputs) {
    && s'.alive && s'.rt.stateCycles == 0 && s'.rt.stableCycles == 0 && !s'.rt.enableRequest
    && if SomeFault(inputs) then ToZero(s') else GoesTo(s', CW0F_ROLLBACK_CW07, 0x0007)
  }

  // A state that waits for a status, at most `limit` good exchanges.
  predicate Awaits(s: Session, inputs: Inputs, waited: nat, s': Session, limit: nat) {
    if SomeFault(inputs) || waited + 1 >= limit then ToZero(s') && s'.rt.stateCycles == 0 else Same(s, s')
  }

  // Every target is the measured position, without torque or feed-forward.
  predicate Relatches(s: Session, inputs: Inputs, s': Session) {
    forall i :: 0 <= i < 6 ==>
      s'.rt.image[i] == s.rt.image[i].(target := inputs[i].position, torque := 0, feedForward := 0)
  }

  predicate BringsUp(s: Session, inputs: Inputs, waited: nat, s': Session) {
    match s.rt.drive
    case CW06_WAIT_DELAY =>
      if waited + 1 < 2500 then Same(s, s')
      else if AllShow(inputs, 0x004F, 0x0040) then GoesTo(s', CW06_WAIT_READY, 0x0006)
      else GoesTo(s', CW06_FAILED, 0x0000)
    case CW06_WAIT_READY =>
      if AllShow(inputs, 0x006F, 0x0021) then Moved(s, s', CW06_DONE)
      else Awaits(s, inputs, waited, s', 1000)
    case CW06_DONE =>
      if AllShow(inputs, 0x006F, 0x0021) then GoesTo(s', CW07_WAIT_SWITCHED_ON, 0x0007)
      else Awaits(s, inputs, waited, s', 10)
    case CW07_WAIT_SWITCHED_ON =>
      if AllShow(inputs, 0x006F, 0x0023) then Moved(s, s', CW07_DONE)
      else Awaits(s, inputs, waited, s', 1000)
    case CW07_DONE =>
      && !s'.rt.enableRequest
      && if !AllShow(inputs, 0x006F, 0x0023) then Awaits(s, inputs, waited, s', 10)
         else if !s.rt.enableRequest then Same(s, s')
         else if InMode8(s.rt.image, inputs) && AllControlwords(s.rt.image, 0x0007)
         then GoesTo(s', CW0F_WAIT_TARGET_STABLE, 0x0007) && Relatches(s, inputs, s')
         else ToZero(s')
    case _ => true
  }

  predicate Enables(s: Session, inputs: Inputs, waited: nat, s': Session) {
    match s.rt.drive
    case CW0F_WAIT_TARGET_STABLE =>
      if AtRest(s.rt.image, inputs) && s.streak + 1 >= 3 then GoesTo(s', CW0F_WAIT_OPERATION_ENABLED, 0x000F)
      else Awaits(s, inputs, waited, s', 1000)
    case CW0F_WAIT_OPERATION_ENABLED =>
      if AllShow(inputs, 0x006F, 0x0027) then Moved(s, s', CW0F_DONE)
      else if SomeFault(inputs) then ToZero(s')
      else if waited + 1 >= 1000 then GoesTo(s', CW0F_ROLLBACK_CW07, 0x0007)
      else Same(s, s')
    case CW0F_DONE => if AllShow(inputs, 0x006F, 0x0027) then Moved(s, s', TEST) else Dropped(s', inputs)
    case CW0F_ROLLBACK_CW07 =>
      if AllShow(inputs, 0x006F, 0x0023) then Moved(s, s', CW07_DONE) && !s'.rt.enableRequest
      else Awaits(s, inputs, waited, s', 1000)
    case CW06_ROLLBACK_ZERO => GoesTo(s', CW06_FAILED, 0x0000)
    case CW06_FAILED => GoesTo(s', CW06_FAILED, 0x0000)
    case _ => true
  }

  predicate Motions(s: Session, inputs: Inputs, motion: Motion, s': Session) {
    if motion.QuickStop? then GoesTo(s', TEST, 0x000B)
    else if !AllShow(inputs, 0x006F, 0x0027) then Dropped(s', inputs)
    else if !InMode8(s.rt.image, inputs) || (motion.Point? && !motion.staged) then !s'.alive
    else
      && s'.alive && s'.rt.drive == TEST
      && match motion
         case Point(target, _) => HoldsTargets(s'.rt.image, target)
         case KeepTargets => s'.rt.image == s.rt.image
         case FollowMeasured =>
           forall i :: 0 <= i < 6 ==> s'.rt.image[i] == s.rt.image[i].(target := inputs[i].position)
         case QuickStop => true
  }

  // ------------------------------------------------------------------- why it is so

  lemma Shows(inputs: Inputs, mask: bv16, value: bv16)
    ensures AllMatch(inputs, mask, value) <==> AllShow(inputs, mask, value)
  {
  }

  lemma ShowsFault(inputs: Inputs)
    ensures FaultFound(inputs) <==> SomeFault(inputs)
  {
    if FaultFound(inputs) {
      var i :| 0 <= i < AXIS_COUNT && HasFault(inputs[i]);
      assert inputs[i].statusword & 0x0008 != 0;
    }
    if SomeFault(inputs) {
      var i :| 0 <= i < 6 && inputs[i].statusword & 0x0008 != 0;
      assert HasFault(inputs[i]);
    }
  }

  lemma ShowsRest(image: Image, inputs: Inputs)
    ensures PassesEnableCheck(image, inputs) <==> AtRest(image, inputs)
  {
    Shows(inputs, 0x006F, 0x0023);
    hide AllMatch, AllShow;
  }

  lemma ShowsMode8(image: Image, inputs: Inputs)
    ensures ModesAreCsp(image, inputs) <==> InMode8(image, inputs)
    ensures CanRelatch(image, inputs) <==>
            AllShow(inputs, 0x006F, 0x0023) && InMode8(image, inputs) && AllControlwords(image, 0x0007)
  {
  }

  predicate Handles(s: Session, e: Event, waited: nat) {
    Driving(s) && e.GoodExchange? && (Waits(s.rt.drive) ==> s.rt.stateCycles == waited)
  }

  lemma ReadyHolds(s: Session, e: Event, waited: nat)
    requires Handles(s, e, waited)
    requires s.rt.drive == CW06_WAIT_DELAY || s.rt.drive == CW06_WAIT_READY || s.rt.drive == CW06_DONE
    ensures BringsUp(s, e.inputs, waited, Next(s, e))
  {
    Shows(e.inputs, 0x004F, 0x0040);
    Shows(e.inputs, 0x006F, 0x0021);
    ShowsFault(e.inputs);
    ControlwordSet(s.rt.image, 0x0000);
    ControlwordSet(s.rt.image, 0x0006);
    ControlwordSet(s.rt.image, 0x0007);
    hide AllMatch, AllShow, FaultFound, SomeFault, WithControlword, StagesEnable, SlotOk, ModesOk, InMode8,
         HandleBrake, WaitSwitchedOn, SwitchedOn;
  }

  lemma SwitchedOnHolds(s: Session, e: Event, waited: nat)
    requires Handles(s, e, waited) && (s.rt.drive == CW07_WAIT_SWITCHED_ON || s.rt.drive == CW07_DONE)
    ensures BringsUp(s, e.inputs, waited, Next(s, e))
  {
    Shows(e.inputs, 0x006F, 0x0023);
    ShowsFault(e.inputs);
    ShowsMode8(s.rt.image, e.inputs);
    ControlwordSet(s.rt.image, 0x0000);
    hide AllMatch, AllShow, FaultFound, SomeFault, CanRelatch, InMode8, WithControlword, StagesEnable, SlotOk, ModesOk,
         HandleBrake;
  }

  lemma StableHolds(s: Session, e: Event, waited: nat)
    requires Handles(s, e, waited) && s.rt.drive == CW0F_WAIT_TARGET_STABLE
    ensures Enables(s, e.inputs, waited, Next(s, e))
  {
    ShowsFault(e.inputs);
    ShowsRest(s.rt.image, e.inputs);
    ControlwordSet(s.rt.image, 0x0000);
    ControlwordSet(s.rt.image, 0x000F);
    hide AllMatch, AllShow, FaultFound, SomeFault, PassesEnableCheck, AtRest, WithControlword, StagesEnable, SlotOk,
         ModesOk;
  }

  lemma EnablingHolds(s: Session, e: Event, waited: nat)
    requires Handles(s, e, waited) && s.rt.drive != CW0F_WAIT_TARGET_STABLE
    ensures Enables(s, e.inputs, waited, Next(s, e))
  {
    Shows(e.inputs, 0x006F, 0x0023);
    Shows(e.inputs, 0x006F, 0x0027);
    ShowsFault(e.inputs);
    ControlwordSet(s.rt.image, 0x0000);
    ControlwordSet(s.rt.image, 0x0007);
    hide AllMatch, AllShow, FaultFound, SomeFault, AtRest, WithControlword, StagesEnable, SlotOk, ModesOk, HandleBrake,
         WaitDelay, WaitReady, ReadyToSwitchOn, WaitSwitchedOn, SwitchedOn, WaitTargetStable, HandleTest;
  }

  lemma StopHolds(s: Session, e: Event)
    requires Driving(s) && e.GoodExchange? && s.rt.drive == TEST
    requires e.motion.QuickStop? || !AllShow(e.inputs, 0x006F, 0x0027)
    ensures Motions(s, e.inputs, e.motion, Next(s, e))
  {
    Shows(e.inputs, 0x006F, 0x0027);
    ShowsFault(e.inputs);
    ControlwordSet(s.rt.image, 0x0000);
    ControlwordSet(s.rt.image, 0x0007);
    ControlwordSet(s.rt.image, 0x000B);
    hide AllMatch, AllShow, FaultFound, SomeFault, ModesAreCsp, InMode8, WithControlword, PlacePoint, HoldsTargets,
         StagesEnable, SlotOk, ModesOk, Relatched;
  }

  lemma PlacingHolds(s: Session, e: Event)
    requires Driving(s) && e.GoodExchange? && s.rt.drive == TEST
    requires !e.motion.QuickStop? && AllShow(e.inputs, 0x006F, 0x0027)
    ensures Motions(s, e.inputs, e.motion, Next(s, e))
  {
    Shows(e.inputs, 0x006F, 0x0027);
    ShowsMode8(s.rt.image, e.inputs);
    if e.motion.Point? {
      PlacedPointIsHeld(s.rt.image, e.motion.target);
    }
    hide AllMatch, AllShow, FaultFound, SomeFault, ModesAreCsp, InMode8, WithControlword, PlacePoint, HoldsTargets,
         StagesEnable, SlotOk, ModesOk;
  }

  // ---------------------------------------------------------------- a bad exchange

  // The drive states that a third bad exchange in a row takes to 0x0000.
  predicate FallsToZero(d: Drive) {
    || d == CW06_WAIT_READY || d == CW06_DONE || d == CW07_WAIT_SWITCHED_ON || d == CW07_DONE
    || d == CW0F_WAIT_TARGET_STABLE || d == CW0F_WAIT_OPERATION_ENABLED || d == CW0F_DONE || d == TEST
    || d == CW0F_ROLLBACK_CW07
  }

  // An exchange after `bad` bad ones in a row failed too.
  predicate Fails(s: Session, bad: nat, s': Session) {
    if bad + 1 < 3 then Same(s, s') && s'.rt.stateCycles == s.rt.stateCycles
    else
      && (s'.alive ==> bad + 1 < 100)
      && (FallsToZero(s.rt.drive) ==>
            && s'.rt.drive == CW06_ROLLBACK_ZERO && AllControlwords(s'.rt.image, 0x0000)
            && s'.rt.stateCycles == 0 && s'.rt.stableCycles == 0 && !s'.rt.enableRequest
            && (s'.alive <==> bad + 1 < 100))
      && (!FallsToZero(s.rt.drive) && !IsBrake(s.rt.drive) ==>
            s'.rt.drive == s.rt.drive && s'.rt.image == s.rt.image && (s'.alive <==> bad + 1 < 100))
      && (s.rt.drive == CW06_WAIT_DELAY ==> s'.rt.stateCycles == 0)
      && (IsBrake(s.rt.drive) ==>
            && (s'.alive <==> bad + 1 < 100 && !CommandOut(s.rt.brake.step) && MayWithdraw(s))
            && (s'.alive ==>
                  && ToZero(s') && s'.rt.job.state.JobIdle?
                  && (s.rt.brake.step > 0 ==>
                        && 1 <= s.rt.brake.slave <= 3
                        && s'.rt.image[Slot(s.rt.brake.slave, AxisOf(s.rt.drive))].mode == 8)))
  }

  // Nothing is in the SDO worker's hands, and no open command can have been executed.
  predicate MayWithdraw(s: Session) {
    var job := s.rt.job.state;
    job.JobIdle? || if s.rt.brake.step == 2 then job.WritePending? else !job.Running?
  }

  // The open command has gone out and the axis has not been relatched.
  predicate CommandOut(step: nat) { 2 < step <= 13 }

  lemma FailureHolds(s: Session)
    requires Inv(s) && s.alive
    ensures Fails(s, s.rt.badWkc, Next(s, BadExchange))
  {
    ControlwordSet(s.rt.image, 0x0000);
    if IsBrake(s.rt.drive) {
      ControlwordSet(LossInBrake(s.rt.(badWkc := s.rt.badWkc + 1, stateCycles := 0, stableCycles := 0,
                                       enableRequest := false)).0.image, 0x0000);
    }
    hide WithControlword, StagesEnable, ModesOk, FollowsScript, ModesSoFar;
  }

  // ----------------------------------------------------------------- over whole runs

  // Bad exchanges in a row up to here.
  function BadInRow(events: seq<Event>, k: nat): nat
    requires k <= |events|
    decreases k
  {
    if k == 0 || events[k - 1].GoodExchange? then 0
    else BadInRow(events, k - 1) + if events[k - 1].BadExchange? then 1 else 0
  }

  predicate Counted(s: Session, waited: nat, bad: nat) {
    s.alive ==> s.rt.badWkc == bad && (Waits(s.rt.drive) ==> s.rt.stateCycles == waited)
  }

  lemma GoodBrakeCounts(s: Session, e: Event)
    requires Braking(s) && e.GoodExchange?
    ensures
      var s' := Next(s, e);
      s'.alive ==> s'.rt.badWkc == 0 && (Waits(s'.rt.drive) ==> s'.rt.stateCycles == 0 && s'.rt.drive != s.rt.drive)
  {
    hide AllMatch, WithControlword, Process, Withdrawn, StagesEnable, ModesOk, BrakeOk, FollowsScript;
  }

  predicate Lower(d: Drive) {
    || d == CW06_WAIT_DELAY || d == CW06_WAIT_READY || d == CW06_DONE || d == CW07_WAIT_SWITCHED_ON || d == CW07_DONE
  }

  lemma LowerDriveCounts(s: Session, e: Event, waited: nat, bad: nat)
    requires Driving(s) && Counted(s, waited, bad) && e.GoodExchange? && Lower(s.rt.drive)
    ensures Counted(Next(s, e), StillWaited(waited, s, e, Next(s, e)), 0)
  {
    Shows(e.inputs, 0x006F, 0x0023);
    hide AllMatch, AllShow, FaultFound, CanRelatch, WithControlword, StagesEnable, SlotOk, ModesOk, Commanded,
         HandleBrake, WaitTargetStable, WaitOperationEnabled, OperationEnabled, RollbackWait, HandleTest;
  }

  lemma UpperDriveCounts(s: Session, e: Event, waited: nat, bad: nat)
    requires Driving(s) && Counted(s, waited, bad) && e.GoodExchange? && !Lower(s.rt.drive)
    ensures Counted(Next(s, e), StillWaited(waited, s, e, Next(s, e)), 0)
  {
    hide AllMatch, AllShow, FaultFound, PassesEnableCheck, ModesAreCsp, WithControlword, StagesEnable, SlotOk, ModesOk,
         Commanded, HandleBrake, PlacePoint, Relatched, WaitDelay, WaitReady, ReadyToSwitchOn, WaitSwitchedOn,
         SwitchedOn;
  }

  lemma GoodDriveCounts(s: Session, e: Event, waited: nat, bad: nat)
    requires Driving(s) && Counted(s, waited, bad) && e.GoodExchange?
    ensures Counted(Next(s, e), StillWaited(waited, s, e, Next(s, e)), 0)
  {
    hide Inv, Next, Counted, StillWaited, Lower;
    if Lower(s.rt.drive) { LowerDriveCounts(s, e, waited, bad); } else { UpperDriveCounts(s, e, waited, bad); }
  }

  lemma StepCounts(s: Session, e: Event, waited: nat, bad: nat)
    requires Inv(s) && Enabled(s, e) && Counted(s, waited, bad)
    ensures
      var s' := Next(s, e);
      Counted(s', StillWaited(waited, s, e, s'),
              if e.GoodExchange? then 0 else if e.BadExchange? then bad + 1 else bad)
  {
    if e.GoodExchange? {
      if IsBrake(s.rt.drive) { GoodBrakeCounts(s, e); } else { GoodDriveCounts(s, e, waited, bad); }
      hide Next, Inv;
    } else {
      hide WithControlword, StagesEnable, ModesOk, FollowsScript, ModesSoFar, BrakeOk, Withdrawn;
    }
  }

  lemma StartCounts(image: Image)
    ensures Counted(Start(image), 0, 0)
  {
  }

  lemma {:induction false} RunCounts(states: seq<Session>, events: seq<Event>, k: nat)
    requires Run(states, events) && k < |states|
    ensures Counted(states[k], Waited(states, events, k), BadInRow(events, k))
    decreases k
  {
    hide Inv, Next, Enabled, Counted, StillWaited, AllControlwords, Start;
    if k == 0 {
      StartCounts(states[0].rt.image);
    } else {
      RunCounts(states, events, k - 1);
      RunKeepsInv(states, events, k - 1);
      assert Enabled(states[k - 1], events[k - 1]) && states[k] == Next(states[k - 1], events[k - 1]);
      StepCounts(states[k - 1], events[k - 1], Waited(states, events, k - 1), BadInRow(events, k - 1));
    }
  }

  // Past the brakes, a good exchange does exactly this in each drive state.
  lemma GoodExchangeRule(states: seq<Session>, events: seq<Event>, k: nat)
    requires Run(states, events) && k < |events| && events[k].GoodExchange?
    requires states[k].alive && !IsBrake(states[k].rt.drive)
    ensures
      var s, s', e := states[k], states[k + 1], events[k];
      var waited := Waited(states, events, k);
      && BringsUp(s, e.inputs, waited, s') && Enables(s, e.inputs, waited, s')
      && (s.rt.drive == TEST ==> Motions(s, e.inputs, e.motion, s'))
  {
    RunKeepsInv(states, events, k);
    RunCounts(states, events, k);
    var s, e := states[k], events[k];
    assert Enabled(s, e) && states[k + 1] == Next(s, e);
    hide Run, Next, Inv, BringsUp, Enables, Motions, Waited;
    DriveHolds(s, e, Waited(states, events, k));
  }

  lemma DriveHolds(s: Session, e: Event, waited: nat)
    requires Handles(s, e, waited)
    ensures BringsUp(s, e.inputs, waited, Next(s, e)) && Enables(s, e.inputs, waited, Next(s, e))
    ensures s.rt.drive == TEST ==> Motions(s, e.inputs, e.motion, Next(s, e))
  {
    if s.rt.drive == CW06_WAIT_DELAY || s.rt.drive == CW06_WAIT_READY || s.rt.drive == CW06_DONE {
      ReadyHolds(s, e, waited);
    } else if s.rt.drive == CW07_WAIT_SWITCHED_ON || s.rt.drive == CW07_DONE {
      SwitchedOnHolds(s, e, waited);
    } else if s.rt.drive == TEST {
      if e.motion.QuickStop? || !AllShow(e.inputs, 0x006F, 0x0027) { StopHolds(s, e); } else { PlacingHolds(s, e); }
    }
    if s.rt.drive == CW0F_WAIT_TARGET_STABLE { StableHolds(s, e, waited); } else { EnablingHolds(s, e, waited); }
    hide Next, AllShow, Awaits, Dropped, GoesTo, Same, Inv;
  }

  // Motion is left as soon as an axis is seen out of Operation Enabled: by a fault to 0x0000
  // on all axes, otherwise to 0x0007, with the enable request and the counters cleared.
  lemma MotionIsLeft(states: seq<Session>, events: seq<Event>, k: nat)
    requires Run(states, events) && k < |events| && events[k].GoodExchange?
    requires states[k].alive && states[k].rt.drive == TEST && !events[k].motion.QuickStop?
    requires exists i :: 0 <= i < 6 && events[k].inputs[i].statusword & 0x006F != 0x0027
    ensures
      var r := states[k + 1].rt;
      && states[k + 1].alive && !r.enableRequest && r.stateCycles == 0 && r.stableCycles == 0
      && if exists i :: 0 <= i < 6 && events[k].inputs[i].statusword & 0x0008 != 0
         then r.drive == CW06_ROLLBACK_ZERO && forall i :: 0 <= i < 6 ==> r.image[i].controlword == 0x0000
         else r.drive == CW0F_ROLLBACK_CW07 && forall i :: 0 <= i < 6 ==> r.image[i].controlword == 0x0007
  {
    GoodExchangeRule(states, events, k);
    hide Run, BringsUp, Enables;
  }

  // And a bad exchange this: two in a row change nothing, from the third on everything past
  // the delay falls to 0x0000, and the hundredth ends the session.
  lemma BadExchangeRule(states: seq<Session>, events: seq<Event>, k: nat)
    requires Run(states, events) && k < |events| && events[k].BadExchange?
    ensures Fails(states[k], BadInRow(events, k), states[k + 1])
  {
    RunKeepsInv(states, events, k);
    RunCounts(states, events, k);
    assert Enabled(states[k], events[k]) && states[k + 1] == Next(states[k], events[k]);
    FailureHolds(states[k]);
    hide Run, Next, Inv, Fails;
  }
}
