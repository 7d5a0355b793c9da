/**
 What a START, a STOP, a RESTART and a network change come to: where every run of the
 supervisor's own steps ends that cannot be continued.
 */
module SupervisorIntents {
  import opened Base
  import opened Supervisor
  import opened SupervisorInvariant
  import opened SupervisorTheorems
  import opened SupervisorRecovery
  import opened SupervisorDuties

  lemma {:induction false} OwnRunKeepsFlags(s: State, own: seq<Action>)
    requires OwnRun(s, own)
    ensures var s' := After(s, own);
            && s'.service.desiredRunning == s.service.desiredRunning && s'.service.destroyed == s.service.destroyed
            && s'.hasConfig == s.hasConfig
    decreases |own|
  {
    if own != [] {
      OwnStepKeepsFlags(s, own[0]);
      OwnRunKeepsFlags(Step(s, own[0]), own[1..]);
    }
  }

  // STOP.

  lemma QuietStop(s: State)
    requires Inv(s) && Duties(s) && Quiet(s) && !s.service.desiredRunning && !s.service.destroyed
    ensures s.service.process == None && forall p :: !LooseIn(s, p)
  {
  }

  /**
   In a reachable state in which the proxy is not wanted, every own run that cannot be
   continued ends at rest with no current child and none alive that nobody asked to stop.
   */
  lemma EveryMaximalOwnRunStops(init: State, actions: seq<Action>, own: seq<Action>)
    requires Init(init) && CanRun(init, actions)
    requires !After(init, actions).service.desiredRunning && !After(init, actions).service.destroyed
    requires OwnRun(After(init, actions), own) && Stuck(After(After(init, actions), own))
    ensures var end := After(After(init, actions), own);
            Quiet(end) && end.service.process == None && forall p :: !LooseIn(end, p)
  {
    var s := After(init, actions);
    ReachableDuties(init, actions);
    RunKeepsDuties(s, own);
    OwnRunKeepsFlags(s, own);
    StuckIsQuiet(After(s, own));
    QuietStop(After(s, own));
  }

  /** So a STOP, taken in any reachable state before onDestroy, is carried out. */
  lemma StopIsCarriedOut(init: State, actions: seq<Action>, own: seq<Action>)
    requires Init(init) && CanRun(init, actions) && Enabled(After(init, actions), StopIntent)
    requires OwnRun(Step(After(init, actions), StopIntent), own)
    requires Stuck(After(Step(After(init, actions), StopIntent), own))
    ensures var end := After(Step(After(init, actions), StopIntent), own);
            Quiet(end) && end.service.process == None && forall p :: !LooseIn(end, p)
  {
    ReachableInv(init, actions);
    Extend(init, actions, StopIntent);
    EveryMaximalOwnRunStops(init, actions + [StopIntent], own);
  }

  // RESTART and network changes.

  ghost predicate NetworkArmed(timers: map<TimerId, Timer>) {
    exists id :: id in timers && timers[id].NetworkRestart?
  }

  lemma NetworkArmedFacts(timers: map<TimerId, Timer>, id: TimerId)
    ensures NetworkArmed(timers) ==> RestartArmed(timers)
    ensures NetworkArmed(timers - {id}) ==> NetworkArmed(timers)
  {
  }

  predicate RenewalUnderWay(c: Control) {
    c.RestartEntry? || c.ArmEntry? || c.StopEntry? || c.Terminate?
  }

  /** Somewhere between the request for a restart and the release of the child. */
  ghost predicate RestartOwed(s: State) {
    || s.main == Submitting(RestartTask)
    || RestartTask in s.executor.queue || ArmNetworkTask in s.executor.queue
    || NetworkArmed(s.executor.timers)
    || RenewalUnderWay(s.control)
  }

  /** None of the former children is alive and current, or alive and about to become so. */
  ghost predicate Renewed(s: State, former: set<Pid>) {
    && (ChildRunning(s) ==> s.service.process.value !in former)
    && (Unplaced(s.control) && IsAlive(s, s.control.pid) ==> s.control.pid !in former)
  }

  lemma OwedTaken(s: State)
    requires Wanted(s) && RestartOwed(s) && Enabled(s, TakeTask)
    ensures RestartOwed(Step(s, TakeTask))
  {
    TakeFromQueue(s.executor.queue);
  }

  lemma OwedFired(s: State, id: TimerId)
    requires RestartOwed(s) && Enabled(s, FireTimer(id))
    ensures RestartOwed(Step(s, FireTimer(id)))
  {
    var timers := s.executor.timers;
    if NetworkArmed(timers) && !timers[id].NetworkRestart? {
      var other :| other in timers && timers[other].NetworkRestart?;
      assert other in (timers - {id});
    }
  }

  /** The steps that cancel the pending restart owe one themselves, or come when no current child lives. */
  lemma OwedCancelled(s: State, former: set<Pid>)
    requires Inv(s) && CrashDuty(s) && Wanted(s)
    requires s.control.StopEntry? || s.control.RestartEntry? || s.control.ArmEntry? || s.control.CrashEntry?
    ensures RestartOwed(ControlNext(s)) || Renewed(ControlNext(s), former)
  {
    if s.control.ArmEntry? {
      var timers := ControlNext(s).executor.timers;
      assert s.executor.nextTimer in timers && timers[s.executor.nextTimer].NetworkRestart?;
    }
  }

  lemma OwedReleased(s: State, former: set<Pid>)
    requires s.control.Terminate?
    ensures Renewed(ControlNext(s), former)
  {
  }

  /** Every other control step leaves the request where it is. */
  lemma OwedLeft(s: State)
    requires RestartOwed(s) && Enabled(s, ControlStep) && !RenewalUnderWay(s.control) && !s.control.CrashEntry?
    requires Inv(s) && Wanted(s)
    ensures RestartOwed(ControlNext(s))
  {
    var s' := ControlNext(s);
    if NetworkArmed(s.executor.timers) {
      var id :| id in s.executor.timers && s.executor.timers[id].NetworkRestart?;
      assert id in s'.executor.timers && s'.executor.timers[id].NetworkRestart?;
    }
  }

  lemma OwedStep(s: State, a: Action, former: set<Pid>)
    requires Inv(s) && CrashDuty(s) && Wanted(s) && Enabled(s, a) && IsOwn(a) && RestartOwed(s)
    ensures RestartOwed(Step(s, a)) || Renewed(Step(s, a), former)
  {
    match a {
      case TakeTask => OwedTaken(s);
      case FireTimer(id) => OwedFired(s, id);
      case ControlStep =>
        if s.control.Terminate? {
          OwedReleased(s, former);
        } else if RenewalUnderWay(s.control) || s.control.CrashEntry? {
          OwedCancelled(s, former);
        } else {
          OwedLeft(s);
        }
      case _ =>
    }
  }

  lemma RenewedStep(s: State, a: Action, former: set<Pid>)
    requires HoldsInv(s.service, s.world, s.control, s.main) && Enabled(s, a) && IsOwn(a)
    requires former <= s.world.children.Keys && Renewed(s, former)
    ensures Renewed(Step(s, a), former) && former <= Step(s, a).world.children.Keys
  {
  }

  lemma ChildrenStay(s: State, a: Action)
    requires Enabled(s, a)
    ensures s.world.children.Keys <= Step(s, a).world.children.Keys
  {
  }

  /** Own steps carry a request for a restart on until every former child is out of the way. */
  lemma {:induction false} OwedRun(s: State, own: seq<Action>, former: set<Pid>)
    requires Inv(s) && Duties(s) && Wanted(s) && OwnRun(s, own)
    requires former <= s.world.children.Keys && (RestartOwed(s) || Renewed(s, former))
    ensures RestartOwed(After(s, own)) || Renewed(After(s, own), former)
    decreases |own|
  {
    if own != [] {
      var a := own[0];
      StepKeepsInv(s, a);
      StepKeepsDuties(s, a);
      OwnStepKeepsFlags(s, a);
      ChildrenStay(s, a);
      if RestartOwed(s) {
        OwedStep(s, a, former);
      } else {
        RenewedStep(s, a, former);
      }
      OwedRun(Step(s, a), own[1..], former);
    }
  }

  /** A child installed during a run has a later generation than any at its start. */
  lemma {:induction false} InstalledLater(s: State, actions: seq<Action>, p: Pid)
    requires CanRun(s, actions) && p !in s.world.installedAs && p in After(s, actions).world.installedAs && Inv(s)
    ensures After(s, actions).world.installedAs[p] > s.service.generation
    decreases |actions|
  {
    var s1 := Step(s, actions[0]);
    StepKeepsInv(s, actions[0]);
    GenerationStep(s, actions[0]);
    if p in s1.world.installedAs {
      InstallRaises(s, actions[0], p);
      GenerationsOnlyGrow(s1, actions[1..]);
    } else {
      InstalledLater(s1, actions[1..], p);
    }
  }

  lemma InstallRaises(s: State, a: Action, p: Pid)
    requires Enabled(s, a) && p !in s.world.installedAs && p in Step(s, a).world.installedAs
    ensures Step(s, a).world.installedAs[p] > s.service.generation
  {
  }

  lemma RenewedAtRest(s: State, former: set<Pid>, p: Pid)
    requires Inv(s) && Quiet(s) && Stuck(s) && (RestartOwed(s) || Renewed(s, former)) && p in former
    ensures !LooseIn(s, p) && (ChildRunning(s) ==> s.service.process.value !in former)
  {
  }

  /**
   Whenever, in a reachable wanted state with a config, a restart is owed - a RESTART is
   being submitted or queued, or a network restart is queued, armed or due - every own run
   that cannot be continued ends with a live current child that did not exist at the start,
   under a later generation; every child of the start is dead or was asked to stop.
   */
  lemma EveryMaximalOwnRunRenews(init: State, actions: seq<Action>, own: seq<Action>)
    requires Init(init) && CanRun(init, actions)
    requires Wanted(After(init, actions)) && After(init, actions).hasConfig && RestartOwed(After(init, actions))
    requires OwnRun(After(init, actions), own) && Stuck(After(After(init, actions), own))
    ensures var s, end := After(init, actions), After(After(init, actions), own);
            && Quiet(end) && ChildRunning(end)
            && end.service.process.value !in s.world.children
            && end.service.process.value in end.world.installedAs
            && end.world.installedAs[end.service.process.value] > s.service.generation
            && forall p <- s.world.children :: !LooseIn(end, p)
  {
    var s := After(init, actions);
    var end := After(s, own);
    ReachableDuties(init, actions);
    EveryMaximalOwnRunRecovers(init, actions, own);
    OwedRun(s, own, s.world.children.Keys);
    RunKeepsInv(s, own);
    var p := end.service.process.value;
    NewAtRest(s, end);
    assert p !in s.world.installedAs;
    InstalledLater(s, own, p);
  }

  lemma NewAtRest(s: State, end: State)
    requires Inv(end) && Quiet(end) && Stuck(end) && ChildRunning(end)
    requires RestartOwed(end) || Renewed(end, s.world.children.Keys)
    ensures end.service.process.value !in s.world.children
    ensures forall p <- s.world.children :: !LooseIn(end, p)
  {
    forall p | p in s.world.children ensures !LooseIn(end, p) {
      RenewedAtRest(end, s.world.children.Keys, p);
    }
    if end.service.process.value in s.world.children {
      RenewedAtRest(end, s.world.children.Keys, end.service.process.value);
    }
  }

  /** So a RESTART, taken in any reachable state before onDestroy, replaces the child. */
  lemma RestartIsCarriedOut(init: State, actions: seq<Action>, own: seq<Action>)
    requires Init(init) && CanRun(init, actions) && Enabled(After(init, actions), RestartIntent)
    requires After(init, actions).hasConfig
    requires OwnRun(Step(After(init, actions), RestartIntent), own)
    requires Stuck(After(Step(After(init, actions), RestartIntent), own))
    ensures var s, end := After(init, actions), After(Step(After(init, actions), RestartIntent), own);
            && Quiet(end) && ChildRunning(end) && end.service.process.value !in s.world.children
            && forall p <- s.world.children :: !LooseIn(end, p)
  {
    ReachableInv(init, actions);
    Extend(init, actions, RestartIntent);
    EveryMaximalOwnRunRenews(init, actions + [RestartIntent], own);
  }

  /** And so does a network change, once a wanted supervisor has taken it up. */
  lemma NetworkChangeIsCarriedOut(init: State, actions: seq<Action>, own: seq<Action>)
    requires Init(init) && CanRun(init, actions) && Enabled(After(init, actions), NetworkSubmits)
    requires Wanted(After(init, actions)) && After(init, actions).hasConfig
    requires OwnRun(Step(After(init, actions), NetworkSubmits), own)
    requires Stuck(After(Step(After(init, actions), NetworkSubmits), own))
    ensures var s, end := After(init, actions), After(Step(After(init, actions), NetworkSubmits), own);
            && Quiet(end) && ChildRunning(end) && end.service.process.value !in s.world.children
            && forall p <- s.world.children :: !LooseIn(end, p)
  {
    Extend(init, actions, NetworkSubmits);
    var s := After(init, actions);
    assert Step(s, NetworkSubmits).executor.queue[|s.executor.queue|] == ArmNetworkTask;
    EveryMaximalOwnRunRenews(init, actions + [NetworkSubmits], own);
  }

  // START, and a child that nothing is due to replace.

  /** So a START, taken in any reachable state before onDestroy, ends with a live current child. */
  lemma StartIsCarriedOut(init: State, actions: seq<Action>, own: seq<Action>)
    requires Init(init) && CanRun(init, actions) && Enabled(After(init, actions), StartIntent)
    requires After(init, actions).hasConfig
    requires OwnRun(Step(After(init, actions), StartIntent), own)
    requires Stuck(After(Step(After(init, actions), StartIntent), own))
    ensures ChildRunning(After(Step(After(init, actions), StartIntent), own))
  {
    ReachableInv(init, actions);
    Extend(init, actions, StartIntent);
    EveryMaximalOwnRunRecovers(init, actions + [StartIntent], own);
  }

  /** Neither a stop nor a restart is due, and onDestroy has not begun. */
  ghost predicate Calm(s: State) {
    !s.service.destroyed && !StopPending(s) && !RestartOwed(s)
  }

  /** As long as it lives, p is current, nobody has asked it to stop, and nothing is due to. */
  ghost predicate Undisturbed(s: State, p: Pid) {
    IsAlive(s, p) ==> s.service.process == Some(p) && LooseIn(s, p) && Calm(s)
  }

  /** Everything but a stop, a restart, a network change and onDestroy. */
  predicate IsPeaceful(a: Action) {
    !a.StopIntent? && !a.RestartIntent? && !a.NetworkSubmits? && !a.DestroyService?
  }

  lemma AliveBefore(s: State, a: Action, p: Pid)
    requires Enabled(s, a) && p in s.world.children && IsAlive(Step(s, a), p)
    ensures IsAlive(s, p)
  {
  }

  lemma CalmControl(s: State, p: Pid)
    requires Inv(s) && CrashDuty(s) && Calm(s) && s.service.process == Some(p) && IsAlive(s, p)
    requires Enabled(s, ControlStep)
    ensures var s' := ControlNext(s); s'.service.process == Some(p) && Calm(s') && s'.world.children == s.world.children
  {
    var s' := ControlNext(s);
    if s.control.Launch? {
      forall id | id in s'.executor.timers ensures !s'.executor.timers[id].NetworkRestart? {
        assert id != s.executor.nextTimer ==> id in s.executor.timers;
      }
    }
  }

  lemma CalmOthers(s: State, a: Action, p: Pid)
    requires Inv(s) && Calm(s) && s.service.process == Some(p) && LooseIn(s, p)
    requires Enabled(s, a) && IsPeaceful(a) && a != ControlStep
    ensures var s' := Step(s, a); s'.service.process == Some(p) && Calm(s') && (IsAlive(s', p) ==> LooseIn(s', p))
  {
    if a == TakeTask {
      assert s.executor.queue[0] in s.executor.queue;
    }
    if a.FireTimer? {
      NetworkArmedFacts(s.executor.timers, a.id);
    }
  }

  lemma UndisturbedStep(s: State, a: Action, p: Pid)
    requires Inv(s) && Duties(s) && p in s.world.children && Undisturbed(s, p) && Enabled(s, a) && IsPeaceful(a)
    ensures p in Step(s, a).world.children && Undisturbed(Step(s, a), p)
  {
    ChildrenStay(s, a);
    if IsAlive(Step(s, a), p) {
      AliveBefore(s, a, p);
      if a == ControlStep {
        CalmControl(s, p);
      } else {
        CalmOthers(s, a, p);
      }
    }
  }

  /**
   A live current child with no stop or restart due stays current, and nobody asks it to
   stop, in every run without a stop, a restart, a network change or onDestroy: no further
   START, no timer, no notice and no other child's exit disturbs it.
   */
  lemma {:induction false} ChildIsLeftAlone(s: State, actions: seq<Action>, p: Pid)
    requires Inv(s) && Duties(s) && p in s.world.children && Undisturbed(s, p)
    requires CanRun(s, actions) && forall a <- actions :: IsPeaceful(a)
    ensures IsAlive(After(s, actions), p) ==> After(s, actions).service.process == Some(p) && LooseIn(After(s, actions), p)
    decreases |actions|
  {
    if actions != [] {
      StepKeepsInv(s, actions[0]);
      StepKeepsDuties(s, actions[0]);
      UndisturbedStep(s, actions[0], p);
      ChildIsLeftAlone(Step(s, actions[0]), actions[1..], p);
    }
  }

  // The end of a back-off.

  lemma StuckHasNoTimer(s: State)
    requires Stuck(s) && s.control == Idle
    ensures s.executor.timers == map[]
  {
    forall id ensures id !in s.executor.timers {
      assert IsOwn(FireTimer(id));
    }
  }

  /** Every own run from a wanted state that cannot be continued ends with no failure on the count. */
  lemma BackOffIsForgiven(init: State, actions: seq<Action>, own: seq<Action>)
    requires Init(init) && CanRun(init, actions)
    requires Wanted(After(init, actions)) && After(init, actions).hasConfig
    requires OwnRun(After(init, actions), own) && Stuck(After(After(init, actions), own))
    ensures After(After(init, actions), own).service.failures == 0
  {
    var end := After(After(init, actions), own);
    ReachableDuties(init, actions);
    RunKeepsDuties(After(init, actions), own);
    EveryMaximalOwnRunRecovers(init, actions, own);
    OwnRunKeepsFlags(After(init, actions), own);
    StuckHasNoTimer(end);
  }

  // Without a config, and without a wish.

  predicate NoChild(s: State) {
    !s.hasConfig && s.world.children == map[] && s.control != Spawning
  }

  /** Without a config nothing is ever spawned. */
  lemma {:induction false} NoConfigNoChild(s: State, actions: seq<Action>)
    requires NoChild(s) && CanRun(s, actions)
    ensures After(s, actions).world.children == map[]
    decreases |actions|
  {
    if actions != [] {
      assert NoChild(Step(s, actions[0]));
      NoConfigNoChild(Step(s, actions[0]), actions[1..]);
    }
  }

  /** Not wanted, nothing current, and nothing queued, armed or running but stale notices and stability timers. */
  ghost predicate AtRest(s: State) {
    && !s.service.desiredRunning && !s.service.destroyed && s.service.process == None && s.main == Waiting
    && (s.control.Idle? || s.control.ExitEntry? || s.control.StableEntry?)
    && (forall t <- s.executor.queue :: t.ExitTask?)
    && !RestartArmed(s.executor.timers) && s.world.networkCalls == 0
  }

  lemma RestStep(s: State, a: Action)
    requires AtRest(s) && Enabled(s, a) && IsPeaceful(a) && !a.StartIntent?
    ensures AtRest(Step(s, a))
  {
    if a == TakeTask {
      TakeFromQueue(s.executor.queue);
      assert s.executor.queue[0] in s.executor.queue;
    }
  }

  /** While the proxy is not wanted, network changes and late notices queue no start and arm nothing. */
  lemma {:induction false} RestIsKept(s: State, actions: seq<Action>)
    requires AtRest(s) && CanRun(s, actions) && forall a <- actions :: IsPeaceful(a) && !a.StartIntent?
    ensures AtRest(After(s, actions))
    decreases |actions|
  {
    if actions != [] {
      RestStep(s, actions[0]);
      RestIsKept(Step(s, actions[0]), actions[1..]);
    }
  }
}
