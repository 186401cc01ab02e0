// From an empty device to a running one: how a lossless stream fills the device, and which
// configurations can run at all.
module Running {
  import opened Words
  import opened RobotTrajectory
  import opened CspScheduler
  import opened Link
  import opened LinkInvariant
  import opened S = Streaming
  import opened Prefill
  import opened Scenario
  import E = Execution
  import Pdo

  // ------------------------------------------------------------- the load never falls

  predicate Prefilling(s: Sys) { s.host.stream == CspScheduler.Streaming && s.node.dev.state == PREFILL }

  predicate PrefillsThroughout(states: seq<Sys>, i: nat, j: nat)
    requires i <= j < |states|
  {
    forall k :: i <= k <= j ==> Prefilling(states[k])
  }

  predicate Healthy(s: Sys, e: Event) { e.HostDecide? && HealthyCycle(s.host, e.clock) }

  // Healthy cycles between two states of a run.
  function HealthyCycles(states: seq<Sys>, events: seq<Event>, i: nat, j: nat): nat
    requires |states| == |events| + 1 && i <= j <= |events|
    decreases j
  {
    if i == j then 0
    else HealthyCycles(states, events, i, j - 1) + if Healthy(states[j - 1], events[j - 1]) then 1 else 0
  }

  function Min(a: nat, b: nat): nat { if a < b then a else b }

  lemma StreamingOnSendsOnlyPoints(c: Config, h: Host, t: Clock)
    requires h.stream == CspScheduler.Streaming && Decide(c, h, t).0.stream == CspScheduler.Streaming
    ensures Decide(c, h, t).1.NoAction? || Decide(c, h, t).1.Apply?
  {
    hide RemoteFault, MayApply, SafetyFault;
  }

  lemma CycleRaisesLoad(states: seq<Sys>, events: seq<Event>, k: nat)
    requires Run(states, events) && LosesNothing(events) && k < |events| && events[k].HostDecide?
    requires Prefilling(states[k]) && Prefilling(states[k + 1])
    ensures Load(states[k]) <= Load(states[k + 1])
    ensures Healthy(states[k], events[k]) ==> Load(states[k + 1]) >= Min(states[k].cfg.high, Load(states[k]) + 1)
  {
    var s, t := states[k], events[k].clock;
    assert Enabled(s, events[k]) && states[k + 1] == Next(s, events[k]);
    StreamingOnSendsOnlyPoints(s.cfg, s.host, t);
    if HealthyCycle(s.host, t) {
      PrefillAlwaysProgresses(states, events, k, t);
    }
    hide Run, Decide, HealthyCycle, Applies;
  }

  lemma DeliveryKeepsLoad(states: seq<Sys>, events: seq<Event>, k: nat)
    requires Run(states, events) && LosesNothing(events) && k < |events| && events[k].Deliver?
    requires Prefilling(states[k])
    ensures Load(states[k]) == Load(states[k + 1])
  {
    RunKeepsInv(states, events, k);
    assert Enabled(states[k], events[k]);
    assert states[k].channel[0].frame.kind.ApplyFrame?;
    DeliveryFills(states, events, k);
    hide Run, Inv;
  }

  lemma OtherKeepsLoad(s: Sys, e: Event)
    requires Inv(s) && Enabled(s, e) && !e.HostDecide? && !e.Deliver? && !e.Lose? && !e.Corrupt?
    requires Prefilling(s) && Prefilling(Next(s, e))
    ensures Load(Next(s, e)) == Load(s)
  {
    if e.LinkTakes? {
      AppliesAppend(s.channel, Packet(|s.sent|, FrameOf(s.pending.action, s.host.nextSequence)));
    } else if e.DeviceStep? {
      InternalKeepsPhase(s.node, e.event);
      hide E.Next, E.Enabled;
    }
    hide DeviceOk, Ordered, SnapsOk, CreditOk, Applies, ApplyCall, ReadFrame, Decide;
  }

  lemma {:induction false} ConfigurationStays(states: seq<Sys>, events: seq<Event>, k: nat)
    requires Run(states, events) && k < |states|
    ensures states[k].cfg == states[0].cfg
    decreases k
  {
    if k > 0 {
      ConfigurationStays(states, events, k - 1);
      hide Enabled;
      assert Enabled(states[k - 1], events[k - 1]) && states[k] == Next(states[k - 1], events[k - 1]);
    }
  }

  lemma StepRaisesLoad(states: seq<Sys>, events: seq<Event>, k: nat)
    requires Run(states, events) && LosesNothing(events) && k < |events|
    requires Prefilling(states[k]) && Prefilling(states[k + 1])
    ensures Load(states[k]) <= Load(states[k + 1])
    ensures Healthy(states[k], events[k]) ==> Load(states[k + 1]) >= Min(states[k].cfg.high, Load(states[k]) + 1)
  {
    if events[k].HostDecide? {
      CycleRaisesLoad(states, events, k);
    } else if events[k].Deliver? {
      DeliveryKeepsLoad(states, events, k);
    } else {
      RunKeepsInv(states, events, k);
      hide Enabled, Inv, Next, Initial;
      assert Enabled(states[k], events[k]) && states[k + 1] == Next(states[k], events[k]);
      OtherKeepsLoad(states[k], events[k]);
    }
    hide Load, HealthyCycle, Prefilling, Run;
  }

  // While the stream lasts and the device prefills, on a link that loses nothing, the load
  // never falls and every healthy cycle adds a point until the high watermark is reached.
  lemma {:induction false} LoadNeverFalls(states: seq<Sys>, events: seq<Event>, i: nat, j: nat)
    requires Run(states, events) && LosesNothing(events) && i <= j <= |events|
    requires PrefillsThroughout(states, i, j)
    ensures Load(states[i]) <= Load(states[j])
    ensures Load(states[j]) >= Min(states[0].cfg.high, Load(states[i]) + HealthyCycles(states, events, i, j))
    decreases j
  {
    hide Load, Healthy, Prefilling, LosesNothing, Initial, Next, Enabled;
    if i < j {
      LoadNeverFalls(states, events, i, j - 1);
      assert Prefilling(states[j - 1]) && Prefilling(states[j]);
      ConfigurationStays(states, events, j - 1);
      StepRaisesLoad(states, events, j - 1);
    }
    hide Run;
  }

  lemma QueueIsTheLoad(s: Sys)
    requires Inv(s) && s.channel == [] && !s.pending.Decided?
    ensures WellFormed(s.node.dev) && |s.node.dev.queue| == Load(s)
  {
    hide Numbered, Ordered, SnapsOk, CreditOk, Phases;
  }

  // So with a high watermark of eight or more, eight healthy cycles are enough: once what
  // they sent has arrived, the device takes its first point, or drops a stale one.
  lemma EightCyclesFill(states: seq<Sys>, events: seq<Event>, i: nat, j: nat, tick: U32)
    requires Run(states, events) && LosesNothing(events) && i <= j <= |events|
    requires PrefillsThroughout(states, i, j)
    requires states[0].cfg.high >= RobotTrajectory.PREFILL_COUNT
    requires Load(states[i]) + HealthyCycles(states, events, i, j) >= RobotTrajectory.PREFILL_COUNT
    requires states[j].channel == [] && !states[j].pending.Decided?
    ensures
      var d := states[j].node.dev;
      && |d.queue| >= RobotTrajectory.PREFILL_COUNT
      && (Take(d, tick).0.state == RUNNING || Take(d, tick).0.counts.expired != d.counts.expired)
  {
    hide Load, HealthyCycles, LosesNothing, Initial, Next, Enabled, Inv;
    LoadNeverFalls(states, events, i, j);
    RunKeepsInv(states, events, j);
    QueueIsTheLoad(states[j]);
    assert Prefilling(states[j]);
    hide Run;
    FullPrefillRuns(states[j].node.dev, tick);
  }

  // ----------------------------------------------------------- which configurations run

  // Some run of this configuration has a running device at its end.
  ghost predicate CanRun(c: Config) {
    exists states: seq<Sys>, events: seq<Event> ::
      Run(states, events) && states[0].cfg == c && states[|events|].node.dev.state == RUNNING
  }

  // Some run of this configuration has executed a point.
  ghost predicate CanExecute(c: Config) {
    exists states: seq<Sys>, events: seq<Event> ::
      Run(states, events) && states[0].cfg == c && states[|events|].node.log != []
  }

  // Of the configurations the constructor accepts, exactly those with a high watermark of
  // at least the prefill count can ever run, and the same ones can execute a point.
  lemma WhatCanRun(c: Config)
    requires ValidConfig(c)
    ensures CanRun(c) <==> c.high >= RobotTrajectory.PREFILL_COUNT
    ensures CanExecute(c) <==> c.high >= RobotTrajectory.PREFILL_COUNT
  {
    if c.high >= RobotTrajectory.PREFILL_COUNT {
      var node := E.Start(seq(Pdo.AXIS_COUNT, _ => Pdo.AxisOut(0, 0, 0, 0, 0)));
      var inputs := seq(Pdo.AXIS_COUNT, _ => Pdo.AxisIn(0, 0, 0, 0, 0));
      var states, events := RunningIsReached(c, [0, 0, 0, 0, 0, 0], node, inputs);
      ConfigurationStays(states, events, |events|);
      var states', events' := ConfirmationIsReached(c, [0, 0, 0, 0, 0, 0], node, inputs);
      ConfigurationStays(states', events', |events'|);
    } else {
      forall states: seq<Sys>, events: seq<Event> | Run(states, events) && states[0].cfg == c
        ensures states[|events|].node.dev.state != RUNNING && states[|events|].node.log == []
      {
        LowWatermarkStarves(states, events, |events|);
      }
    }
    hide Run;
  }
}
