/**
 A second reading of "no restart is lost": left to itself, the supervisor always brings up
 a live child. Its own steps cannot go on for ever, and where they end a child is running.
 */
module SupervisorRecovery {
  import opened Base
  import opened Supervisor
  import opened SupervisorInvariant
  import opened SupervisorTheorems
  import RestartPolicy

  /** What the supervisor does by itself when no spawn fails and no child exits. */
  predicate IsOwn(a: Action) {
    match a
    case SubmitIntent => true
    case TakeTask => true
    case FireTimer(_) => true
    case ControlStep => true
    case SpawnChild(_) => true
    case WaiterPosts(_, _) => true
    case _ => false
  }

  ghost predicate Good(s: State) {
    Inv(s) && Wanted(s) && s.hasConfig
  }

  ghost predicate OwnRun(s: State, own: seq<Action>) {
    CanRun(s, own) && forall a <- own :: IsOwn(a)
  }

  /** No own action is possible. */
  ghost predicate Stuck(s: State) {
    forall a :: IsOwn(a) ==> !Enabled(s, a)
  }

  // A bound on what is still to be done.

  function TaskWeight(t: Task): nat {
    match t
    case EnsureTask => 10
    case RestartTask => 11
    case StopTask => 4
    case ArmNetworkTask => 13
    case ExitTask(_, _) => 14
  }

  function QueueWeight(q: seq<Task>): nat {
    if q == [] then 0 else TaskWeight(q[0]) + QueueWeight(q[1..])
  }

  const STABLE_WEIGHT := 2
  const CRASH_WEIGHT := 10
  const NETWORK_WEIGHT := 11
  const WAITER_WEIGHT := 15

  function TimerWeight(t: Timer): nat {
    match t
    case Stable(_, _) => STABLE_WEIGHT
    case CrashRestart(_) => CRASH_WEIGHT
    case NetworkRestart(_) => NETWORK_WEIGHT
  }

  /** The timers that weigh w. */
  function Weighing(timers: map<TimerId, Timer>, w: nat): set<TimerId> {
    set id | id in timers && TimerWeight(timers[id]) == w
  }

  function TimersWeight(timers: map<TimerId, Timer>): nat {
    STABLE_WEIGHT * |Weighing(timers, STABLE_WEIGHT)| + CRASH_WEIGHT * |Weighing(timers, CRASH_WEIGHT)|
    + NETWORK_WEIGHT * |Weighing(timers, NETWORK_WEIGHT)|
  }

  /** Waiters whose child has exited: each still owes a notice. */
  ghost function DeadWaiters(s: State): set<(Pid, nat)> {
    set w | w in s.world.waiters && !IsAlive(s, w.0)
  }

  /** A new child costs its stability timer; one that is dead already also a notice and a restart. */
  function PlacedWeight(s: State, p: Pid): nat {
    if IsAlive(s, p) then 3 else 18
  }

  function ControlWeight(s: State): nat {
    match s.control
    case Idle => 0
    case StopEntry => 3
    case EnsureEntry => 9
    case EnsureAlive => 8
    case RestartEntry => 10
    case ArmEntry => 12
    case Terminate(thenStart) => if thenStart then 9 else 2
    case Destroy(_, thenStart) => if thenStart then 8 else 1
    case StartEntry => 7
    case Spawning => 6
    case Recheck(p) => 2 + PlacedWeight(s, p)
    case Discard(_) => 1
    case Install(p) => 1 + PlacedWeight(s, p)
    case Launch(p, _) => PlacedWeight(s, p)
    case CrashEntry => 11
    case ExitEntry(_, _) => 13
    case ExitCleared => 12
    case StableEntry(_, _) => 1
  }

  function MainWeight(m: Main): nat {
    if m.Submitting? then 1 + TaskWeight(m.task) else 0
  }

  ghost function Weight(s: State): nat {
    MainWeight(s.main) + QueueWeight(s.executor.queue) + TimersWeight(s.executor.timers)
    + WAITER_WEIGHT * |DeadWaiters(s)| + ControlWeight(s)
  }

  lemma {:induction false} QueueAppend(q: seq<Task>, t: Task)
    ensures QueueWeight(q + [t]) == QueueWeight(q) + TaskWeight(t)
  {
    if q == [] {
      assert [] + [t] == [t] && [t][1..] == [];
    } else {
      assert (q + [t])[1..] == q[1..] + [t];
      QueueAppend(q[1..], t);
    }
  }

  lemma {:induction false} SubsetSize<T>(a: set<T>, b: set<T>)
    requires a <= b
    ensures |a| <= |b|
    decreases a
  {
    if a != {} {
      var x :| x in a;
      SubsetSize(a - {x}, b - {x});
    }
  }

  lemma OneMoreWeighing(timers: map<TimerId, Timer>, id: TimerId, t: Timer, w: nat)
    requires id !in timers
    ensures |Weighing(timers[id := t], w)| == |Weighing(timers, w)| + if TimerWeight(t) == w then 1 else 0
  {
    var more := if TimerWeight(t) == w then {id} else {};
    assert id !in Weighing(timers, w);
    assert Weighing(timers[id := t], w) == Weighing(timers, w) + more;
  }

  /** Setting a new timer adds its own weight. */
  lemma AddedTimer(timers: map<TimerId, Timer>, id: TimerId, t: Timer)
    requires id !in timers
    ensures TimersWeight(timers[id := t]) == TimersWeight(timers) + TimerWeight(t)
  {
    OneMoreWeighing(timers, id, t, STABLE_WEIGHT);
    OneMoreWeighing(timers, id, t, CRASH_WEIGHT);
    OneMoreWeighing(timers, id, t, NETWORK_WEIGHT);
  }

  lemma RemovedTimer(timers: map<TimerId, Timer>, id: TimerId)
    ensures TimersWeight(timers) == TimersWeight(timers - {id}) + if id in timers then TimerWeight(timers[id]) else 0
  {
    if id in timers {
      AddedTimer(timers - {id}, id, timers[id]);
      assert (timers - {id})[id := timers[id]] == timers;
    } else {
      assert timers - {id} == timers;
    }
  }

  lemma CancelLightens(s: State)
    ensures TimersWeight(CancelPendingRestart(s).executor.timers) <= TimersWeight(s.executor.timers)
  {
    if s.service.pendingRestart.Some? {
      RemovedTimer(s.executor.timers, s.service.pendingRestart.value);
    }
  }

  lemma ArmedTimers(s: State, t: Timer)
    requires s.executor.nextTimer !in s.executor.timers
    ensures TimersWeight(ArmRestart(s, t).executor.timers) <= TimersWeight(s.executor.timers) + TimerWeight(t)
  {
    CancelLightens(s);
    AddedTimer(CancelPendingRestart(s).executor.timers, s.executor.nextTimer, t);
  }

  /** Asking a child to stop leaves every child as alive as it was. */
  lemma KilledKeepsAlive(s: State, p: Pid)
    ensures forall q :: IsAlive(Killed(s, p), q) == IsAlive(s, q)
    ensures DeadWaiters(Killed(s, p)) == DeadWaiters(s)
  {
    var s' := Killed(s, p);
    assert s'.world.waiters == s.world.waiters;
    forall q ensures IsAlive(s', q) == IsAlive(s, q) {
      assert q in s'.world.children <==> q in s.world.children;
    }
  }

  ghost predicate SameWorld(s: State, s': State) {
    s'.main == s.main && s'.executor.queue == s.executor.queue && DeadWaiters(s') == DeadWaiters(s)
  }

  /** Control points that touch neither timers nor children. */
  lemma PlainStepLightens(s: State)
    requires s.control != Idle && s.control != Spawning
    requires !s.control.StopEntry? && !s.control.RestartEntry? && !s.control.ArmEntry? && !s.control.CrashEntry?
    requires !s.control.Launch? && !s.control.Destroy? && !s.control.Discard?
    ensures Weight(ControlNext(s)) < Weight(s)
  {
    assert SameWorld(s, ControlNext(s)) && ControlNext(s).executor.timers == s.executor.timers;
  }

  lemma CancelStepLightens(s: State)
    requires s.control.StopEntry? || s.control.RestartEntry?
    ensures Weight(ControlNext(s)) < Weight(s)
  {
    assert SameWorld(s, ControlNext(s));
    CancelLightens(s);
  }

  lemma ArmStepLightens(s: State)
    requires s.control.ArmEntry? || s.control.CrashEntry?
    requires s.executor.nextTimer !in s.executor.timers
    ensures Weight(ControlNext(s)) < Weight(s)
  {
    assert SameWorld(s, ControlNext(s));
    var delay := RestartPolicy.DelayMs(s.service.failures);
    ArmedTimers(s, if s.control.ArmEntry? then NetworkRestart(NETWORK_RESTART_DELAY_MS) else CrashRestart(delay));
  }

  lemma KillStepLightens(s: State)
    requires s.control.Destroy? || s.control.Discard?
    ensures Weight(ControlNext(s)) < Weight(s)
  {
    KilledKeepsAlive(s, s.control.pid);
    assert DeadWaiters(ControlNext(s)) == DeadWaiters(Killed(s, s.control.pid));
  }

  /** A launch makes a waiter that owes a notice only if the child is dead already. */
  lemma LaunchedWaiter(s: State)
    requires s.control.Launch?
    ensures |DeadWaiters(ControlNext(s))| <= |DeadWaiters(s)| + if IsAlive(s, s.control.pid) then 0 else 1
  {
    var s' := ControlNext(s);
    var p, g := s.control.pid, s.control.generation;
    var dead := if IsAlive(s, p) then DeadWaiters(s) else DeadWaiters(s) + {(p, g)};
    assert s'.world.waiters <= s.world.waiters + {(p, g)};
    assert DeadWaiters(s') <= dead;
    SubsetSize(DeadWaiters(s'), dead);
  }

  lemma LaunchStepLightens(s: State)
    requires s.control.Launch? && s.executor.nextTimer !in s.executor.timers
    ensures Weight(ControlNext(s)) < Weight(s)
  {
    var s' := ControlNext(s);
    LaunchedWaiter(s);
    AddedTimer(s.executor.timers, s.executor.nextTimer, Stable(s.control.pid, s.control.generation));
    assert TimersWeight(s'.executor.timers) <= TimersWeight(s.executor.timers) + STABLE_WEIGHT;
    assert s'.main == s.main && s'.executor.queue == s.executor.queue && ControlWeight(s') == 0;
  }

  lemma ControlStepLightens(s: State)
    requires s.control != Idle && s.control != Spawning && s.executor.nextTimer !in s.executor.timers
    ensures Weight(ControlNext(s)) < Weight(s)
  {
    match s.control {
      case StopEntry => CancelStepLightens(s);
      case RestartEntry => CancelStepLightens(s);
      case ArmEntry => ArmStepLightens(s);
      case CrashEntry => ArmStepLightens(s);
      case Destroy(_, _) => KillStepLightens(s);
      case Discard(_) => KillStepLightens(s);
      case Launch(_, _) => LaunchStepLightens(s);
      case _ => PlainStepLightens(s);
    }
  }

  lemma SpawnLightens(s: State, p: Pid)
    requires Enabled(s, SpawnChild(p))
    ensures Weight(Step(s, SpawnChild(p))) < Weight(s)
  {
    var s' := Step(s, SpawnChild(p));
    assert IsAlive(s', p);
    assert DeadWaiters(s') <= DeadWaiters(s);
    SubsetSize(DeadWaiters(s'), DeadWaiters(s));
  }

  lemma OneDeadWaiterLess(s: State, p: Pid, g: nat)
    requires Enabled(s, WaiterPosts(p, g))
    ensures |DeadWaiters(Step(s, WaiterPosts(p, g)))| == |DeadWaiters(s)| - 1
  {
    assert (p, g) in DeadWaiters(s);
    assert DeadWaiters(Step(s, WaiterPosts(p, g))) == DeadWaiters(s) - {(p, g)};
  }

  lemma PostLightens(s: State, p: Pid, g: nat)
    requires Enabled(s, WaiterPosts(p, g))
    ensures Weight(Step(s, WaiterPosts(p, g))) < Weight(s)
  {
    OneDeadWaiterLess(s, p, g);
    QueueAppend(s.executor.queue, ExitTask(p, g));
    var s' := Step(s, WaiterPosts(p, g));
    assert ControlWeight(s') == ControlWeight(s) && s'.executor.timers == s.executor.timers;
  }

  lemma SubmitLightens(s: State)
    requires Enabled(s, SubmitIntent)
    ensures Weight(Step(s, SubmitIntent)) < Weight(s)
  {
    assert DeadWaiters(Step(s, SubmitIntent)) == DeadWaiters(s);
    assert ControlWeight(Step(s, SubmitIntent)) == ControlWeight(s);
    QueueAppend(s.executor.queue, s.main.task);
  }

  lemma TakeLightens(s: State)
    requires Enabled(s, TakeTask)
    ensures Weight(Step(s, TakeTask)) < Weight(s)
  {
    assert DeadWaiters(Step(s, TakeTask)) == DeadWaiters(s);
  }

  lemma FireLightens(s: State, id: TimerId)
    requires Enabled(s, FireTimer(id))
    ensures Weight(Step(s, FireTimer(id))) < Weight(s)
  {
    assert DeadWaiters(Step(s, FireTimer(id))) == DeadWaiters(s);
    RemovedTimer(s.executor.timers, id);
  }

  /** Every own action leaves less to be done. */
  lemma OwnStepLightens(s: State, a: Action)
    requires Inv(s) && Enabled(s, a) && IsOwn(a)
    ensures Weight(Step(s, a)) < Weight(s)
  {
    assert s.executor.nextTimer !in s.executor.timers;
    match a {
      case ControlStep => ControlStepLightens(s);
      case SpawnChild(p) => SpawnLightens(s, p);
      case WaiterPosts(p, g) => PostLightens(s, p, g);
      case SubmitIntent => SubmitLightens(s);
      case TakeTask => TakeLightens(s);
      case FireTimer(id) => FireLightens(s, id);
    }
  }

  lemma OwnStepKeepsFlags(s: State, a: Action)
    requires Enabled(s, a) && IsOwn(a)
    ensures var s' := Step(s, a);
            && s'.service.desiredRunning == s.service.desiredRunning && s'.service.destroyed == s.service.destroyed
            && s'.hasConfig == s.hasConfig
  {
  }

  lemma OwnStepIsGood(s: State, a: Action)
    requires Good(s) && Enabled(s, a) && IsOwn(a)
    ensures Good(Step(s, a))
  {
    StepKeepsInv(s, a);
    OwnStepKeepsFlags(s, a);
  }

  lemma {:induction false} OwnRunIsGood(s: State, own: seq<Action>)
    requires Good(s) && OwnRun(s, own)
    ensures Good(After(s, own))
    decreases |own|
  {
    if own != [] {
      OwnStepIsGood(s, own[0]);
      OwnRunIsGood(Step(s, own[0]), own[1..]);
    }
  }

  /** One action in front of a bounded run. */
  lemma OneStepMore(s: State, a: Action, length: nat, end: State)
    requires Inv(s) && Enabled(s, a) && IsOwn(a) && length + Weight(end) <= Weight(Step(s, a))
    ensures length + 1 + Weight(end) <= Weight(s)
  {
    OwnStepLightens(s, a);
  }

  /** No own run is longer than the weight of the state it starts from. */
  lemma {:induction false} OwnRunsAreBounded(s: State, own: seq<Action>)
    requires Inv(s) && OwnRun(s, own)
    ensures |own| + Weight(After(s, own)) <= Weight(s)
    decreases |own|
  {
    if own != [] {
      StepKeepsInv(s, own[0]);
      OwnRunsAreBounded(Step(s, own[0]), own[1..]);
      OneStepMore(s, own[0], |own| - 1, After(s, own));
    }
  }

  // Where own runs end.

  lemma {:induction false} FreshPid(pids: set<Pid>) returns (p: Pid)
    ensures forall q <- pids :: q < p
  {
    if pids == {} {
      p := 0;
    } else {
      var q :| q in pids;
      var r := FreshPid(pids - {q});
      p := if r > q then r else q + 1;
      assert forall x | x in pids :: x == q || x in pids - {q};
    }
  }

  lemma BusyIsNotStuck(s: State)
    requires s.control != Idle
    ensures !Stuck(s)
  {
    if s.control == Spawning {
      var p := FreshPid(s.world.children.Keys);
      assert Enabled(s, SpawnChild(p)) && IsOwn(SpawnChild(p));
    } else {
      assert Enabled(s, ControlStep) && IsOwn(ControlStep);
    }
  }

  lemma StuckIsQuiet(s: State)
    requires Inv(s) && !s.service.destroyed && Stuck(s)
    ensures Quiet(s)
  {
    if s.control != Idle {
      BusyIsNotStuck(s);
    }
    assert IsOwn(SubmitIntent) && IsOwn(TakeTask);
    forall id | id in s.executor.timers ensures false {
      assert IsOwn(FireTimer(id)) && Enabled(s, FireTimer(id));
    }
    forall w | w in s.world.waiters ensures IsAlive(s, w.0) {
      assert (w.0, w.1) == w && IsOwn(WaiterPosts(w.0, w.1));
    }
  }

  /**
   From every reachable state in which the proxy is wanted and a config is on disk, every
   run of the supervisor's own steps that cannot be continued ends at rest with a live
   current child; and every own run has at most Weight steps, so none goes on for ever.
   */
  lemma EveryMaximalOwnRunRecovers(init: State, actions: seq<Action>, own: seq<Action>)
    requires Init(init) && CanRun(init, actions)
    requires Wanted(After(init, actions)) && After(init, actions).hasConfig
    requires OwnRun(After(init, actions), own)
    ensures |own| <= Weight(After(init, actions))
    ensures var end := After(After(init, actions), own); Stuck(end) ==> Quiet(end) && ChildRunning(end)
  {
    ReachableInv(init, actions);
    OwnRunsAreBounded(After(init, actions), own);
    OwnRunIsGood(After(init, actions), own);
    var end := After(After(init, actions), own);
    if Stuck(end) {
      StuckIsQuiet(end);
      QuietRuns(end);
    }
  }

  /** Puts one own action in front of an own run. */
  lemma Prepend(s: State, a: Action, own: seq<Action>)
    requires Enabled(s, a) && IsOwn(a) && OwnRun(Step(s, a), own)
    ensures OwnRun(s, [a] + own) && After(s, [a] + own) == After(Step(s, a), own)
  {
    assert ([a] + own)[1..] == own;
  }

  /** Own steps can be taken until none is left. */
  lemma {:induction false} RunToTheEnd(s: State) returns (own: seq<Action>)
    requires Inv(s)
    ensures OwnRun(s, own) && Stuck(After(s, own))
    decreases Weight(s)
  {
    if Stuck(s) {
      own := [];
    } else {
      var a :| IsOwn(a) && Enabled(s, a);
      StepKeepsInv(s, a);
      OwnStepLightens(s, a);
      var rest := RunToTheEnd(Step(s, a));
      Prepend(s, a, rest);
      own := [a] + rest;
    }
  }

  /** From every such state there is a run of own steps that ends with a live current child. */
  lemma RecoveryIsAlwaysPossible(init: State, actions: seq<Action>) returns (own: seq<Action>)
    requires Init(init) && CanRun(init, actions)
    requires Wanted(After(init, actions)) && After(init, actions).hasConfig
    ensures OwnRun(After(init, actions), own)
    ensures ChildRunning(After(After(init, actions), own))
  {
    ReachableInv(init, actions);
    own := RunToTheEnd(After(init, actions));
    EveryMaximalOwnRunRecovers(init, actions, own);
  }
}
