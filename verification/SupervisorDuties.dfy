/**
 A second inductive invariant of the supervisor: what its steps owe to a STOP, to a crash,
 to a stable child and to a child that was asked to stop.
 */
module SupervisorDuties {
  import opened Base
  import opened Supervisor
  import opened SupervisorInvariant
  import opened SupervisorTheorems

  // A STOP taken is a STOP carried out.

  predicate StopUnderWay(c: Control) {
    match c
    case StopEntry => true
    case Terminate(thenStart) => !thenStart
    case Destroy(_, thenStart) => !thenStart
    case _ => false
  }

  predicate StopPending(s: State) {
    s.main == Submitting(StopTask) || StopTask in s.executor.queue || StopUnderWay(s.control)
  }

  predicate StopDuty(s: State) {
    !s.service.desiredRunning && !s.service.destroyed ==> StopPending(s) || Settled(s)
  }

  lemma StopCarriedOn(s: State)
    requires Inv(s) && StopDuty(s) && Enabled(s, ControlStep)
    ensures StopDuty(Step(s, ControlStep))
  {
    if !StopUnderWay(s.control) && Settled(s) {
      SettledStep(s, ControlStep);
    }
  }

  lemma StopDutyKept(s: State, a: Action)
    requires Inv(s) && StopDuty(s) && Enabled(s, a)
    ensures StopDuty(Step(s, a))
  {
    if a == ControlStep {
      StopCarriedOn(s);
    }
  }

  // Terminating leaves no restart armed, and a restart begins with a fresh back-off.

  ghost predicate TerminateDuty(s: State) {
    s.control.Terminate? || s.control.Destroy? ==>
      !RestartArmed(s.executor.timers) && (s.control.thenStart ==> s.service.failures == 0)
  }

  lemma CancelDisarms(s: State)
    requires TimersInv(s.executor, s.service.pendingRestart)
    ensures !RestartArmed(CancelPendingRestart(s).executor.timers)
  {
    var timers := CancelPendingRestart(s).executor.timers;
    forall id | id in timers ensures !IsRestartTimer(timers[id]) {
      assert id in s.executor.timers;
    }
  }

  lemma TerminateDutyKept(s: State, a: Action)
    requires Inv(s) && TerminateDuty(s) && Enabled(s, a)
    ensures TerminateDuty(Step(s, a))
  {
    if a == ControlStep && (s.control == StopEntry || s.control == RestartEntry) {
      CancelDisarms(s);
    } else {
      var s' := Step(s, a);
      if s'.control.Terminate? || s'.control.Destroy? {
        assert s.control.Terminate? || s.control.Destroy?;
        assert s'.executor.timers.Keys <= s.executor.timers.Keys;
        forall id | id in s'.executor.timers ensures !IsRestartTimer(s'.executor.timers[id]) {
          assert id in s.executor.timers && s.executor.timers[id] == s'.executor.timers[id];
        }
      }
    }
  }

  // A crash is being handled only when no current child lives.

  predicate CrashDuty(s: State) {
    (s.control.ExitCleared? || s.control.CrashEntry?) && s.service.process.Some? ==>
      !IsAlive(s, s.service.process.value)
  }

  lemma CrashDutyKept(s: State, a: Action)
    requires HoldsInv(s.service, s.world, s.control, s.main) && CrashDuty(s) && Enabled(s, a)
    ensures CrashDuty(Step(s, a))
  {
  }

  // A live child has its stability timer ahead, or the back-off is fresh.

  ghost predicate StableAhead(s: State, p: Pid, g: nat) {
    || s.control == Launch(p, g) || s.control == StableEntry(p, g)
    || exists id :: id in s.executor.timers && s.executor.timers[id] == Stable(p, g)
  }

  ghost predicate PendingIsRestart(pending: Option<TimerId>, timers: map<TimerId, Timer>) {
    pending.Some? && pending.value in timers ==> IsRestartTimer(timers[pending.value])
  }

  ghost predicate StableDuty(s: State) {
    && PendingIsRestart(s.service.pendingRestart, s.executor.timers)
    && (!s.service.destroyed && ChildRunning(s) ==>
          s.service.failures == 0 || StableAhead(s, s.service.process.value, s.service.generation))
  }

  lemma CancelKeepsStables(s: State, id: TimerId)
    requires PendingIsRestart(s.service.pendingRestart, s.executor.timers) && id in s.executor.timers && s.executor.timers[id].Stable?
    ensures id in CancelPendingRestart(s).executor.timers
    ensures CancelPendingRestart(s).executor.timers[id] == s.executor.timers[id]
  {
  }

  /** A stability timer stays ahead unless it fires or its child is launched into it. */
  lemma StableKept(s: State, a: Action, id: TimerId)
    requires PendingIsRestart(s.service.pendingRestart, s.executor.timers) && Enabled(s, a)
    requires !s.service.destroyed && id in s.executor.timers && s.executor.timers[id].Stable? && a != FireTimer(id)
    requires s.executor.nextTimer !in s.executor.timers
    ensures id in Step(s, a).executor.timers && Step(s, a).executor.timers[id] == s.executor.timers[id]
  {
    CancelKeepsStables(s, id);
  }

  lemma LaunchSetsStable(s: State)
    requires Inv(s) && s.control.Launch? && !s.service.destroyed
    ensures StableAhead(ControlNext(s), s.control.pid, s.control.generation)
  {
    var id := s.executor.nextTimer;
    var timers := ControlNext(s).executor.timers;
    assert id in timers && timers[id] == Stable(s.control.pid, s.control.generation);
  }

  predicate Arms(s: State, a: Action) {
    a == ControlStep && (s.control.ArmEntry? || s.control.CrashEntry?)
  }

  lemma ArmedIsPending(s: State, a: Action)
    requires TimersInv(s.executor, s.service.pendingRestart) && Enabled(s, a) && Arms(s, a)
    requires PendingIsRestart(s.service.pendingRestart, s.executor.timers)
    ensures PendingIsRestart(Step(s, a).service.pendingRestart, Step(s, a).executor.timers)
  {
  }

  lemma OthersKeepPending(s: State, a: Action)
    requires TimersInv(s.executor, s.service.pendingRestart) && Enabled(s, a) && !Arms(s, a)
    ensures var pending := Step(s, a).service.pendingRestart; pending == s.service.pendingRestart || pending == None
    ensures forall id <- Step(s, a).executor.timers ::
              id == s.executor.nextTimer
              || (id in s.executor.timers && Step(s, a).executor.timers[id] == s.executor.timers[id])
  {
  }

  lemma PendingStaysRestart(s: State, a: Action)
    requires TimersInv(s.executor, s.service.pendingRestart) && Enabled(s, a)
    requires PendingIsRestart(s.service.pendingRestart, s.executor.timers)
    ensures PendingIsRestart(Step(s, a).service.pendingRestart, Step(s, a).executor.timers)
  {
    if Arms(s, a) {
      ArmedIsPending(s, a);
    } else {
      OthersKeepPending(s, a);
    }
  }

  /** What is current and alive was so before, or has just been installed. */
  lemma RunningBefore(s: State, a: Action)
    requires s.service.process.Some? ==> s.service.process.value in s.world.children
    requires Enabled(s, a) && !(a == ControlStep && s.control.Install?) && ChildRunning(Step(s, a))
    ensures ChildRunning(s) && Step(s, a).service.process == s.service.process
    ensures Step(s, a).service.generation == s.service.generation
  {
  }

  lemma FailuresOfRunning(s: State, a: Action)
    requires Inv(s) && CrashDuty(s) && Enabled(s, a) && ChildRunning(s)
    ensures Step(s, a).service.failures == s.service.failures || Step(s, a).service.failures == 0
  {
  }

  lemma StableDutyKept(s: State, a: Action)
    requires Inv(s) && CrashDuty(s) && StableDuty(s) && Enabled(s, a)
    ensures StableDuty(Step(s, a))
  {
    PendingStaysRestart(s, a);
    var s' := Step(s, a);
    if !s'.service.destroyed && ChildRunning(s') && s'.service.failures != 0 {
      if a == ControlStep && s.control.Install? {
        assert StableAhead(s', s'.service.process.value, s'.service.generation);
      } else {
        RunningBefore(s, a);
        FailuresOfRunning(s, a);
        StillAhead(s, a, s.service.process.value, s.service.generation);
      }
    }
  }

  lemma StableEntryResets(s: State)
    requires s.control.StableEntry? && IsCurrent(s, s.control.pid, s.control.generation) && IsAlive(s, s.control.pid)
    ensures ControlNext(s).service.failures == 0
  {
  }

  /** Nobody else moves a busy control thread. */
  lemma ControlUnmoved(s: State, a: Action)
    requires Enabled(s, a) && s.control != Idle && s.control != Spawning && a != ControlStep
    ensures Step(s, a).control == s.control
  {
  }

  lemma StillAhead(s: State, a: Action, p: Pid, g: nat)
    requires Inv(s) && StableDuty(s) && Enabled(s, a) && !s.service.destroyed
    requires IsCurrent(s, p, g) && IsAlive(s, p) && StableAhead(s, p, g) && Step(s, a).service.failures != 0
    ensures StableAhead(Step(s, a), p, g)
  {
    if s.control == Launch(p, g) || s.control == StableEntry(p, g) {
      if a != ControlStep {
        ControlUnmoved(s, a);
      } else if s.control == Launch(p, g) {
        LaunchSetsStable(s);
      } else {
        StableEntryResets(s);
      }
    } else {
      var id :| id in s.executor.timers && s.executor.timers[id] == Stable(p, g);
      if a == FireTimer(id) {
        assert Step(s, a).control == StableEntry(p, g);
      } else {
        StableKept(s, a, id);
      }
    }
  }

  // An installed child that was asked to stop is out of date.

  predicate Outdated(s: State, p: Pid) {
    p in s.world.installedAs && s.world.installedAs[p] < s.service.generation
  }

  ghost predicate OutdatedDuty(s: State) {
    && (forall p <- s.world.installedAs ::
          p in s.world.children && s.world.children[p].destroyRequested ==> Outdated(s, p))
    && (s.control.Destroy? ==> Outdated(s, s.control.pid))
    && (s.main.DestroyKill? ==> Outdated(s, s.main.pid))
  }

  lemma OutdatedStays(s: State, a: Action, p: Pid)
    requires Inv(s) && Enabled(s, a) && Outdated(s, p)
    ensures Outdated(Step(s, a), p)
  {
    GenerationStep(s, a);
    InstalledStep(s, a);
  }

  /** Only a kill asks a child to stop. */
  lemma OnlyKillsAsk(s: State, a: Action, p: Pid)
    requires Enabled(s, a)
    requires p in Step(s, a).world.children && Step(s, a).world.children[p].destroyRequested
    ensures || (p in s.world.children && s.world.children[p].destroyRequested)
            || (a == ControlStep && (s.control.Destroy? || s.control.Discard?) && s.control.pid == p)
            || (a == DestroyStep && s.main == DestroyKill(p))
  {
  }

  lemma InstallIsClean(s: State, p: Pid)
    requires Inv(s) && s.control == Install(p)
    ensures p in s.world.children && !s.world.children[p].destroyRequested
  {
  }

  /** Whoever is to kill a child has held it since before, or has just released the current one. */
  lemma KillersOf(s: State, a: Action)
    requires Enabled(s, a)
    ensures var s' := Step(s, a);
            && (s'.control.Destroy? ==>
                  (s.control.Destroy? && s'.control.pid == s.control.pid)
                  || (a == ControlStep && s'.service.generation > s.service.generation
                      && s.service.process == Some(s'.control.pid)))
            && (s'.main.DestroyKill? ==>
                  (s.main.DestroyKill? && s'.main.pid == s.main.pid)
                  || (a == DestroyStep && s'.service.generation > s.service.generation
                      && s.service.process == Some(s'.main.pid)))
  {
  }

  lemma ReleasedIsOutdated(s: State, a: Action, p: Pid)
    requires Inv(s) && Enabled(s, a) && s.service.process == Some(p)
    requires Step(s, a).service.generation > s.service.generation
    ensures Step(s, a).service.process == None ==> Outdated(Step(s, a), p)
  {
    InstalledStep(s, a);
  }

  lemma KillersHoldNothing(s: State, a: Action)
    requires Inv(s) && Enabled(s, a)
    ensures a == ControlStep && !s.control.Destroy? && Step(s, a).control.Destroy? ==> Step(s, a).service.process == None
    ensures a == DestroyStep && !s.main.DestroyKill? && Step(s, a).main.DestroyKill? ==> Step(s, a).service.process == None
  {
  }

  lemma OutdatedHolders(s: State, a: Action)
    requires Inv(s) && OutdatedDuty(s) && Enabled(s, a)
    ensures Step(s, a).control.Destroy? ==> Outdated(Step(s, a), Step(s, a).control.pid)
    ensures Step(s, a).main.DestroyKill? ==> Outdated(Step(s, a), Step(s, a).main.pid)
  {
    var s' := Step(s, a);
    KillersOf(s, a);
    KillersHoldNothing(s, a);
    if s'.control.Destroy? {
      if s.control.Destroy? {
        OutdatedStays(s, a, s.control.pid);
      } else {
        ReleasedIsOutdated(s, a, s'.control.pid);
      }
    }
    if s'.main.DestroyKill? {
      if s.main.DestroyKill? {
        OutdatedStays(s, a, s.main.pid);
      } else {
        ReleasedIsOutdated(s, a, s'.main.pid);
      }
    }
  }

  lemma OutdatedDutyKept(s: State, a: Action)
    requires Inv(s) && OutdatedDuty(s) && Enabled(s, a)
    ensures OutdatedDuty(Step(s, a))
  {
    var s' := Step(s, a);
    OutdatedHolders(s, a);
    forall p | p in s'.world.installedAs && p in s'.world.children && s'.world.children[p].destroyRequested
      ensures Outdated(s', p)
    {
      OnlyKillsAsk(s, a, p);
      if a == ControlStep && s.control == Install(p) {
        InstallIsClean(s, p);
      } else {
        NotJustInstalled(s, a, p);
        OutdatedStays(s, a, p);
      }
    }
  }

  lemma NotJustInstalled(s: State, a: Action, p: Pid)
    requires Enabled(s, a) && p in Step(s, a).world.installedAs
    requires !(a == ControlStep && s.control == Install(p))
    ensures p in s.world.installedAs
  {
  }

  // All of them together, in every reachable state.

  ghost predicate Duties(s: State) {
    StopDuty(s) && TerminateDuty(s) && CrashDuty(s) && StableDuty(s) && OutdatedDuty(s)
  }

  lemma InitDuties(s: State)
    requires Init(s)
    ensures Duties(s)
  {
  }

  lemma StepKeepsDuties(s: State, a: Action)
    requires Inv(s) && Duties(s) && Enabled(s, a)
    ensures Duties(Step(s, a))
  {
    StopDutyKept(s, a);
    TerminateDutyKept(s, a);
    CrashDutyKept(s, a);
    StableDutyKept(s, a);
    OutdatedDutyKept(s, a);
  }

  lemma {:induction false} RunKeepsDuties(s: State, actions: seq<Action>)
    requires Inv(s) && Duties(s) && CanRun(s, actions)
    ensures Inv(After(s, actions)) && Duties(After(s, actions))
    decreases |actions|
  {
    if actions != [] {
      StepKeepsInv(s, actions[0]);
      StepKeepsDuties(s, actions[0]);
      RunKeepsDuties(Step(s, actions[0]), actions[1..]);
    }
  }

  lemma ReachableDuties(init: State, actions: seq<Action>)
    requires Init(init) && CanRun(init, actions)
    ensures Inv(After(init, actions)) && Duties(After(init, actions))
  {
    InitInv(init);
    InitDuties(init);
    RunKeepsDuties(init, actions);
  }

  // What follows.

  /**
   No STOP is lost: in every reachable state in which the proxy is not wanted, a Stop task
   is being submitted, queued or carried out, or else no child is current and none is alive
   that nobody asked to stop.
   */
  lemma NoLostStop(init: State, actions: seq<Action>)
    requires Init(init) && CanRun(init, actions)
    ensures var s := After(init, actions);
            !s.service.desiredRunning && !s.service.destroyed ==>
              StopPending(s) || (s.service.process == None && forall p :: !LooseIn(s, p))
  {
    ReachableDuties(init, actions);
  }

  /** Whenever a child is being terminated no restart is armed; before a restart the back-off is fresh. */
  lemma TerminatingDisarms(init: State, actions: seq<Action>)
    requires Init(init) && CanRun(init, actions)
    requires After(init, actions).control.Terminate? || After(init, actions).control.Destroy?
    ensures var s := After(init, actions);
            !RestartArmed(s.executor.timers) && (s.control.thenStart ==> s.service.failures == 0)
  {
    ReachableDuties(init, actions);
  }

  /** While a live child is current, failures are on the count only as long as its stability timer is ahead. */
  lemma FailuresAreForgiven(init: State, actions: seq<Action>)
    requires Init(init) && CanRun(init, actions)
    ensures var s := After(init, actions);
            !s.service.destroyed && ChildRunning(s) && s.service.failures > 0 ==>
              StableAhead(s, s.service.process.value, s.service.generation)
  {
    ReachableDuties(init, actions);
  }

  /** Once destroy() was called on an installed child, its generation is out of date. */
  lemma StoppedChildIsOutdated(init: State, actions: seq<Action>, p: Pid)
    requires Init(init) && CanRun(init, actions)
    requires p in After(init, actions).world.installedAs && p in After(init, actions).world.children
    requires After(init, actions).world.children[p].destroyRequested
    ensures After(init, actions).world.installedAs[p] < After(init, actions).service.generation
  {
    ReachableDuties(init, actions);
  }
}
