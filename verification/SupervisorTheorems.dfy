/** What the supervisor promises over whole runs. */
module SupervisorTheorems {
  import opened Base
  import opened Supervisor
  import opened SupervisorInvariant
  import RestartPolicy

  /** The invariant holds at the end of every run, so in every reachable state. */
  lemma {:induction false} RunKeepsInv(s: State, actions: seq<Action>)
    requires Inv(s) && CanRun(s, actions)
    ensures Inv(After(s, actions))
    decreases |actions|
  {
    if actions != [] {
      StepKeepsInv(s, actions[0]);
      RunKeepsInv(Step(s, actions[0]), actions[1..]);
    }
  }

  lemma ReachableInv(s: State, actions: seq<Action>)
    requires Init(s) && CanRun(s, actions)
    ensures Inv(After(s, actions))
  {
    InitInv(s);
    RunKeepsInv(s, actions);
  }

  // No lost restart.

  /** The exit of the current child is still on its way to the control thread. */
  ghost predicate ExitPending(s: State) {
    s.service.process.Some? && NoticeInFlight(s, s.service.process.value, s.service.generation)
  }

  ghost predicate ChildRunning(s: State) {
    s.service.process.Some? && IsAlive(s, s.service.process.value)
  }

  /**
   In every reachable state in which the proxy is wanted and a config is on disk, a
   child runs, or its exit notice is on the way, or a restart timer is armed, or a
   start task is queued, about to be queued, or running.
   */
  lemma NoLostRestart(init: State, actions: seq<Action>)
    requires Init(init) && CanRun(init, actions)
    ensures var s := After(init, actions);
            Wanted(s) && s.hasConfig ==>
              ChildRunning(s) || ExitPending(s) || RestartArmed(s.executor.timers)
              || StartPending(s) || Starting(s.control)
  {
    ReachableInv(init, actions);
  }

  /** Nothing left to do: no task queued or running, no restart timer, no notice owed by a waiter. */
  ghost predicate Quiet(s: State) {
    && s.main == Waiting && s.control == Idle && s.executor.queue == []
    && !RestartArmed(s.executor.timers)
    && (forall w <- s.world.waiters :: IsAlive(s, w.0))
  }

  lemma QuietRuns(s: State)
    requires Inv(s) && Quiet(s) && Wanted(s) && s.hasConfig
    ensures ChildRunning(s)
  {
    if ExitPending(s) {
      assert (s.service.process.value, s.service.generation) in s.world.waiters;
    }
  }

  /** The supervisor never comes to rest without a live child while one is wanted. */
  lemma QuietMeansRunning(init: State, actions: seq<Action>)
    requires Init(init) && CanRun(init, actions)
    requires Quiet(After(init, actions))
    requires Wanted(After(init, actions)) && After(init, actions).hasConfig
    ensures ChildRunning(After(init, actions))
  {
    ReachableInv(init, actions);
    QuietRuns(After(init, actions));
  }

  // Single child.

  predicate LooseIn(s: State, p: Pid) {
    p in s.world.children && Loose(s.world.children[p])
  }

  /**
   In every reachable state at most one child is alive without destroy() having been
   called on it. It is the process field, or held by the control thread between spawn
   and install or between release and destroy, or held by onDestroy before its destroy.
   */
  lemma SingleChild(init: State, actions: seq<Action>, p: Pid, q: Pid)
    requires Init(init) && CanRun(init, actions)
    requires LooseIn(After(init, actions), p) && LooseIn(After(init, actions), q)
    ensures var s := After(init, actions);
            p == q && Held(s.service.process, s.control, s.main, p)
  {
    ReachableInv(init, actions);
  }

  // STOP is final.

  predicate IsStartIntent(a: Action) {
    a.StartIntent? || a.RestartIntent?
  }

  ghost predicate NoStarts(actions: seq<Action>) {
    forall a <- actions :: !IsStartIntent(a)
  }

  /** No child is current, and nothing under way can make one so until the next start. */
  predicate Settled(s: State) {
    && !s.service.desiredRunning && s.service.process == None && !SubmittingStart(s.main)
    && match s.control
       case Idle => true
       case StopEntry => true
       case EnsureEntry => true
       case RestartEntry => true
       case ArmEntry => true
       case Terminate(thenStart) => !thenStart
       case Destroy(_, thenStart) => !thenStart
       case ExitEntry(_, _) => true
       case StableEntry(_, _) => true
       case _ => false
  }

  lemma SettledStep(s: State, a: Action)
    requires Settled(s) && Enabled(s, a) && !IsStartIntent(a)
    ensures Settled(Step(s, a)) && Step(s, a).world.children.Keys == s.world.children.Keys
  {
  }

  /** From a settled state no run without a start intent spawns or installs a child. */
  lemma {:induction false} SettledRun(s: State, actions: seq<Action>)
    requires Settled(s) && CanRun(s, actions) && NoStarts(actions)
    ensures Settled(After(s, actions)) && After(s, actions).world.children.Keys == s.world.children.Keys
    decreases |actions|
  {
    if actions != [] {
      SettledStep(s, actions[0]);
      SettledRun(Step(s, actions[0]), actions[1..]);
    }
  }

  lemma {:induction false} StaysUnwanted(s: State, actions: seq<Action>)
    requires CanRun(s, actions) && NoStarts(actions) && !s.service.desiredRunning
    ensures !After(s, actions).service.desiredRunning
    decreases |actions|
  {
    if actions != [] {
      assert !IsStartIntent(actions[0]);
      StaysUnwanted(Step(s, actions[0]), actions[1..]);
    }
  }

  /**
   Once STOP has been taken and a Stop task has released the process, no run without a
   start intent has a current child or spawns one, whatever else was queued, armed or
   in flight.
   */
  lemma StopIsFinal(init: State, before: seq<Action>, between: seq<Action>, rest: seq<Action>)
    requires Init(init) && CanRun(init, before)
    requires !After(init, before).service.desiredRunning
    requires CanRun(After(init, before), between) && NoStarts(between)
    requires After(After(init, before), between).control == Terminate(false)
    requires CanRun(ControlNext(After(After(init, before), between)), rest) && NoStarts(rest)
    ensures var released := ControlNext(After(After(init, before), between));
            && Settled(After(released, rest))
            && After(released, rest).world.children.Keys == released.world.children.Keys
  {
    ReachableInv(init, before);
    RunKeepsInv(After(init, before), between);
    StaysUnwanted(After(init, before), between);
    SettledRun(ControlNext(After(After(init, before), between)), rest);
  }

  // Stale notices.

  /** A notice or stability timer of child p under generation g is on its way to the control thread. */
  ghost predicate NoticePending(s: State, p: Pid, g: nat) {
    || (p, g) in s.world.waiters
    || ExitTask(p, g) in s.executor.queue
    || (exists id :: id in s.executor.timers && s.executor.timers[id] == Stable(p, g))
    || s.control == ExitEntry(p, g) || s.control == StableEntry(p, g)
  }

  lemma PendingIsInstalled(s: State, p: Pid, g: nat)
    requires Inv(s) && NoticePending(s, p, g)
    ensures p in s.world.installedAs && s.world.installedAs[p] == g
  {
    var installed := s.world.installedAs;
    if (p, g) in s.world.waiters {
      assert Notice(installed, (p, g).0, (p, g).1);
    } else if ExitTask(p, g) in s.executor.queue {
      assert TaskNotice(installed, ExitTask(p, g));
    } else if exists id :: id in s.executor.timers && s.executor.timers[id] == Stable(p, g) {
      var id :| id in s.executor.timers && s.executor.timers[id] == Stable(p, g);
      assert TimerNotice(installed, s.executor.timers[id]);
    }
  }

  /** Identity of the child alone decides: the generation check never rejects the current child. */
  lemma GenerationMatchesIdentity(init: State, actions: seq<Action>, p: Pid, g: nat)
    requires Init(init) && CanRun(init, actions) && NoticePending(After(init, actions), p, g)
    ensures IsCurrent(After(init, actions), p, g) <==> After(init, actions).service.process == Some(p)
  {
    ReachableInv(init, actions);
    PendingIsInstalled(After(init, actions), p, g);
  }

  /** Only the install step makes a child current. */
  lemma OnlyInstallMakesCurrent(s: State, a: Action)
    requires Enabled(s, a) && !(a == ControlStep && s.control.Install?)
    ensures Step(s, a).service.process == s.service.process || Step(s, a).service.process == None
  {
  }

  lemma GivenUpStep(s: State, a: Action, p: Pid)
    requires ChildInv(s) && Enabled(s, a) && p in s.world.installedAs && s.service.process != Some(p)
    ensures p in Step(s, a).world.installedAs && Step(s, a).service.process != Some(p)
  {
    InstalledStep(s, a);
    if a == ControlStep && s.control.Install? {
      assert s.control.pid != p;
    } else {
      OnlyInstallMakesCurrent(s, a);
    }
  }

  /** A child once given up is never current again. */
  lemma {:induction false} GivenUpForGood(s: State, actions: seq<Action>, p: Pid)
    requires Inv(s) && CanRun(s, actions) && p in s.world.installedAs && s.service.process != Some(p)
    ensures After(s, actions).service.process != Some(p)
    decreases |actions|
  {
    if actions != [] {
      StepKeepsInv(s, actions[0]);
      GivenUpStep(s, actions[0], p);
      GivenUpForGood(Step(s, actions[0]), actions[1..], p);
    }
  }

  /**
   Whenever, in a reachable state, a notice or stability timer is pending for a child that
   is not current, then however the run goes on, handling it changes no field at all.
   */
  lemma StaleNoticeIsHarmless(init: State, before: seq<Action>, rest: seq<Action>, p: Pid, g: nat)
    requires Init(init) && CanRun(init, before) && CanRun(After(init, before), rest)
    requires NoticePending(After(init, before), p, g) && After(init, before).service.process != Some(p)
    ensures var s := After(After(init, before), rest);
            s.control == ExitEntry(p, g) || s.control == StableEntry(p, g) ==> ControlNext(s) == s.(control := Idle)
  {
    ReachableInv(init, before);
    PendingIsInstalled(After(init, before), p, g);
    GivenUpForGood(After(init, before), rest, p);
  }

  /** A child is installed at most once and keeps its generation; generations never go back. */
  lemma {:induction false} GenerationsOnlyGrow(s: State, actions: seq<Action>)
    requires Inv(s) && CanRun(s, actions)
    ensures s.service.generation <= After(s, actions).service.generation
    ensures forall p <- s.world.installedAs ::
              p in After(s, actions).world.installedAs
              && After(s, actions).world.installedAs[p] == s.world.installedAs[p]
    decreases |actions|
  {
    if actions != [] {
      StepKeepsInv(s, actions[0]);
      GenerationStep(s, actions[0]);
      InstalledStep(s, actions[0]);
      GenerationsOnlyGrow(Step(s, actions[0]), actions[1..]);
    }
  }

  lemma GenerationStep(s: State, a: Action)
    requires Enabled(s, a)
    ensures s.service.generation <= Step(s, a).service.generation
  {
  }

  lemma InstalledStep(s: State, a: Action)
    requires ChildInv(s) && Enabled(s, a)
    ensures forall p <- s.world.installedAs ::
              p in Step(s, a).world.installedAs && Step(s, a).world.installedAs[p] == s.world.installedAs[p]
  {
    if !(a == ControlStep && s.control.Install?) {
      assert Step(s, a).world.installedAs == s.world.installedAs;
    }
  }

  /** At most one restart timer is outstanding, and pendingRestart names it. */
  lemma OneRestartTimer(init: State, actions: seq<Action>, i: TimerId, j: TimerId)
    requires Init(init) && CanRun(init, actions)
    requires var timers := After(init, actions).executor.timers;
             i in timers && j in timers && IsRestartTimer(timers[i]) && IsRestartTimer(timers[j])
    ensures i == j && After(init, actions).service.pendingRestart == Some(i)
    ensures var timer := After(init, actions).executor.timers[i];
            if timer.NetworkRestart? then timer.delayMs == 750 else 1000 <= timer.delayMs <= 30000
  {
    ReachableInv(init, actions);
  }

  // The back-off over whole runs.

  /** A wanted restartProxy, or the stability timer of the current child, alive. */
  predicate IsReset(s: State, a: Action) {
    && a == ControlStep
    && ((s.control == RestartEntry && Wanted(s))
        || (s.control.StableEntry? && IsCurrent(s, s.control.pid, s.control.generation) && IsAlive(s, s.control.pid)))
  }

  /** The delay of the crash restart that an action arms, if it arms one. */
  function CrashDelay(s: State, a: Action): Option<int>
    requires Enabled(s, a)
  {
    var id, timers := s.executor.nextTimer, Step(s, a).executor.timers;
    if id in timers && timers[id].CrashRestart? then Some(timers[id].delayMs) else None
  }

  function NextTotal(s: State, a: Action, sofar: int): int
    requires Enabled(s, a)
  {
    if IsReset(s, a) then 0
    else match CrashDelay(s, a) case None => sofar case Some(delay) => sofar + delay
  }

  /** The crash delays armed since the latest reset, added up along a run. */
  function CrashDelays(s: State, actions: seq<Action>, sofar: int): int
    requires CanRun(s, actions)
    decreases |actions|
  {
    if actions == [] then sofar
    else CrashDelays(Step(s, actions[0]), actions[1..], NextTotal(s, actions[0], sofar))
  }

  lemma CrashEntryArms(s: State)
    requires Inv(s) && s.control == CrashEntry
    ensures var s', delay := Step(s, ControlStep), CrashDelay(s, ControlStep);
            if Wanted(s) then delay == Some(RestartPolicy.DelayMs(s.service.failures)) && s'.service.failures == s.service.failures + 1
            else delay == None && s'.service.failures == s.service.failures
  {
    if Wanted(s) {
      var t := CrashRestart(RestartPolicy.DelayMs(s.service.failures));
      assert ArmRestart(s, t).executor.timers[s.executor.nextTimer] == t;
    }
  }

  lemma OthersArmNoCrashRestart(s: State, a: Action)
    requires Inv(s) && Enabled(s, a) && !(a == ControlStep && s.control == CrashEntry)
    ensures CrashDelay(s, a) == None
  {
    assert s.executor.nextTimer !in s.executor.timers;
  }

  lemma OthersCountNoFailure(s: State, a: Action)
    requires Enabled(s, a) && !(a == ControlStep && s.control == CrashEntry)
    ensures Step(s, a).service.failures == if IsReset(s, a) then 0 else s.service.failures
  {
  }

  /**
   An action that is a reset clears the failure counter; one that arms a crash restart
   counts one failure and waits for the failures so far; every other action leaves it.
   */
  lemma BackOffStep(s: State, a: Action)
    requires Inv(s) && Enabled(s, a)
    ensures Step(s, a).service.failures ==
              if IsReset(s, a) then 0
              else if CrashDelay(s, a).Some? then s.service.failures + 1
              else s.service.failures
    ensures CrashDelay(s, a).Some? ==> CrashDelay(s, a).value == RestartPolicy.DelayMs(s.service.failures)
  {
    if a == ControlStep && s.control == CrashEntry {
      CrashEntryArms(s);
    } else {
      OthersArmNoCrashRestart(s, a);
      OthersCountNoFailure(s, a);
    }
  }

  lemma NextTotalMatches(s: State, a: Action, sofar: int)
    requires Inv(s) && Enabled(s, a) && sofar == RestartPolicy.TotalDelayMs(s.service.failures)
    ensures NextTotal(s, a, sofar) == RestartPolicy.TotalDelayMs(Step(s, a).service.failures)
  {
    BackOffStep(s, a);
  }

  lemma {:induction false} BackOffAccumulates(s: State, actions: seq<Action>, sofar: int)
    requires Inv(s) && CanRun(s, actions) && sofar == RestartPolicy.TotalDelayMs(s.service.failures)
    ensures CrashDelays(s, actions, sofar) == RestartPolicy.TotalDelayMs(After(s, actions).service.failures)
    decreases |actions|
  {
    if actions != [] {
      StepKeepsInv(s, actions[0]);
      NextTotalMatches(s, actions[0], sofar);
      BackOffAccumulates(Step(s, actions[0]), actions[1..], NextTotal(s, actions[0], sofar));
    }
  }

  /**
   In every run the crash delays armed since the latest reset add up to the closed form
   of the back-off for the failures counted since then.
   */
  lemma BackOffInEveryRun(init: State, actions: seq<Action>)
    requires Init(init) && CanRun(init, actions)
    ensures var n := After(init, actions).service.failures;
            CrashDelays(init, actions, 0) ==
            if n <= 5 then 1000 * (RestartPolicy.ShiftLeft(1, n) - 1) else 31000 + 30000 * (n - 5)
  {
    InitInv(init);
    BackOffAccumulates(init, actions, 0);
    RestartPolicy.TotalDelayClosedForm(After(init, actions).service.failures);
  }

  // onDestroy.

  /** onDestroy has released the process. */
  predicate PastRelease(m: Main) {
    m.DestroyKill? || m.DestroyShutdown? || m.Gone?
  }

  /** Some run ends with onDestroy finished and a child current. */
  ghost predicate Outlives(s: State) {
    exists actions :: CanRun(s, actions) && After(s, actions).main == Gone && After(s, actions).service.process.Some?
  }

  /** Destroyed, not about to install, and nothing current once the process was released. */
  predicate OutsideWindow(s: State) {
    s.service.destroyed && !s.control.Install? && (PastRelease(s.main) ==> s.service.process == None)
  }

  /**
   Once destroyed, a child can be current after onDestroy exactly when the control thread
   stands past its second flag check, or has installed a child since the release.
   */
  lemma InstallAfterDestroyIff(s: State)
    requires Inv(s) && s.service.destroyed
    ensures Outlives(s) <==> s.control.Install? || (PastRelease(s.main) && s.service.process.Some?)
  {
    if s.control.Install? || (PastRelease(s.main) && s.service.process.Some?) {
      var actions := FinishDestroy(s);
      var gone := After(s, actions);
      if s.control.Install? {
        assert Step(gone, ControlStep).service.process.Some?;
        Extend(s, actions, ControlStep);
      }
    } else {
      forall actions | CanRun(s, actions) ensures OutsideWindow(After(s, actions)) {
        GoneStaysEmpty(s, actions);
      }
    }
  }

  /** The moment of the release decides: whatever is current then is given up, and only an install under way escapes. */
  lemma ReleaseDecides(init: State, before: seq<Action>)
    requires Init(init) && CanRun(init, before) && After(init, before).main == DestroyTerminate
    ensures Outlives(After(init, before)) <==> After(init, before).control.Install?
  {
    ReachableInv(init, before);
    InstallAfterDestroyIff(After(init, before));
  }

  lemma GoneStep(s: State, a: Action)
    requires OutsideWindow(s) && Enabled(s, a)
    ensures OutsideWindow(Step(s, a))
  {
  }

  lemma {:induction false} GoneStaysEmpty(s: State, actions: seq<Action>)
    requires OutsideWindow(s) && CanRun(s, actions)
    ensures OutsideWindow(After(s, actions))
    decreases |actions|
  {
    if actions != [] {
      GoneStep(s, actions[0]);
      GoneStaysEmpty(Step(s, actions[0]), actions[1..]);
    }
  }

  /** Outside the window onDestroy leaves no child behind that nobody asked to stop. */
  lemma NothingLeftRunning(s: State, actions: seq<Action>, p: Pid)
    requires Inv(s) && OutsideWindow(s) && CanRun(s, actions)
    requires After(s, actions).main == Gone && After(s, actions).control == Idle
    ensures !LooseIn(After(s, actions), p)
  {
    RunKeepsInv(s, actions);
    GoneStaysEmpty(s, actions);
  }

  /** The steps of onDestroy that are left; without its release they keep the process. */
  lemma {:induction false} FinishDestroy(s: State) returns (actions: seq<Action>)
    requires s.service.destroyed && Destroying(s.main)
    ensures CanRun(s, actions) && After(s, actions).main == Gone && After(s, actions).control == s.control
    ensures PastRelease(s.main) ==> After(s, actions).service.process == s.service.process
    decreases match s.main case DestroyCancel => 4 case DestroyTerminate => 3 case DestroyKill(_) => 2 case DestroyShutdown => 1 case _ => 0
  {
    if s.main == Gone {
      actions := [];
    } else {
      var rest := FinishDestroy(Step(s, DestroyStep));
      actions := [DestroyStep] + rest;
      assert actions[1..] == rest;
    }
  }

  lemma {:induction false} RunsCompose(s: State, first: seq<Action>, second: seq<Action>)
    requires CanRun(s, first) && CanRun(After(s, first), second)
    ensures CanRun(s, first + second) && After(s, first + second) == After(After(s, first), second)
    decreases |first|
  {
    if first == [] {
      assert first + second == second;
    } else {
      assert (first + second)[1..] == first[1..] + second;
      RunsCompose(Step(s, first[0]), first[1..], second);
    }
  }

  lemma OneAction(s: State, a: Action)
    requires Enabled(s, a)
    ensures CanRun(s, [a]) && After(s, [a]) == Step(s, a)
  {
    assert [a][1..] == [];
  }

  /** Extends a run from init by one action. */
  lemma Extend(init: State, actions: seq<Action>, a: Action)
    requires CanRun(init, actions) && Enabled(After(init, actions), a)
    ensures CanRun(init, actions + [a]) && After(init, actions + [a]) == Step(After(init, actions), a)
  {
    OneAction(After(init, actions), a);
    RunsCompose(init, actions, [a]);
  }

  /**
   The window is real: a START followed by onDestroy just after the second flag check
   ends with onDestroy finished and the control thread about to install its child.
   */
  lemma DestroyWindow(init: State) returns (actions: seq<Action>)
    requires Init(init) && init.hasConfig
    ensures CanRun(init, actions)
    ensures var s := After(init, actions); s.main == Gone && s.service.process == None && Outlives(s)
  {
    actions := StartThenRelease(init);
    Extend(init, actions, DestroyStep);
    actions := actions + [DestroyStep];
    ReachableInv(init, actions);
    InstallAfterDestroyIff(After(init, actions));
  }

  /**
   The same window a moment earlier: the install falls between the release and the end
   of onDestroy, and a live child that nobody asked to stop is left with nobody to stop it.
   */
  lemma EarlyDestroyWindow(init: State) returns (actions: seq<Action>)
    requires Init(init) && init.hasConfig
    ensures CanRun(init, actions)
    ensures var s := After(init, actions);
            s.main == Gone && s.control == Idle && s.service.process == Some(0) && LooseIn(s, 0)
  {
    actions := StartThenRelease(init);
    Extend(init, actions, ControlStep);
    actions := actions + [ControlStep];
    Extend(init, actions, DestroyStep);
    actions := actions + [DestroyStep];
    Extend(init, actions, ControlStep);
    actions := actions + [ControlStep];
  }

  /** With onDestroy finished and the control thread idle nothing changes any more but that children exit. */
  lemma {:induction false} NobodyStopsIt(s: State, actions: seq<Action>, p: Pid)
    requires Inv(s) && s.main == Gone && s.control == Idle && p in s.world.children && CanRun(s, actions)
    ensures var s' := After(s, actions);
            && s'.service == s.service && s'.main == Gone && s'.control == Idle
            && p in s'.world.children
            && s'.world.children[p].destroyRequested == s.world.children[p].destroyRequested
    decreases |actions|
  {
    if actions != [] {
      StepKeepsInv(s, actions[0]);
      NobodyStopsIt(Step(s, actions[0]), actions[1..], p);
    }
  }

  /** A START about to install its child while onDestroy has just released the process. */
  lemma StartThenRelease(init: State) returns (actions: seq<Action>)
    requires Init(init) && init.hasConfig
    ensures CanRun(init, actions)
    ensures var s := After(init, actions);
            && s.control == Install(0) && s.main == DestroyShutdown && s.service.process == None && s.service.destroyed
            && LooseIn(s, 0)
  {
    actions := StartUpTo(init);
    Extend(init, actions, DestroyService);
    actions := actions + [DestroyService];
    Extend(init, actions, DestroyStep);
    actions := actions + [DestroyStep];
    Extend(init, actions, DestroyStep);
    actions := actions + [DestroyStep];
  }

  /** A START carried to the point where its spawned child is about to be installed. */
  lemma StartUpTo(init: State) returns (actions: seq<Action>)
    requires Init(init) && init.hasConfig
    ensures CanRun(init, actions)
    ensures var s := After(init, actions);
            && s.control == Install(0) && s.main == Waiting && s.service.process == None && !s.service.destroyed
            && LooseIn(s, 0)
  {
    actions := [];
    Extend(init, actions, StartIntent);
    actions := actions + [StartIntent];
    Extend(init, actions, SubmitIntent);
    actions := actions + [SubmitIntent];
    Extend(init, actions, TakeTask);
    actions := actions + [TakeTask];
    Extend(init, actions, ControlStep);
    actions := actions + [ControlStep];
    Extend(init, actions, ControlStep);
    actions := actions + [ControlStep];
    Extend(init, actions, ControlStep);
    actions := actions + [ControlStep];
    Extend(init, actions, SpawnChild(0));
    actions := actions + [SpawnChild(0)];
    Extend(init, actions, ControlStep);
    actions := actions + [ControlStep];
  }
}
