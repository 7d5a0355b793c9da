/** The inductive invariant of the supervisor, in six named parts. */
module SupervisorInvariant {
  import opened Base
  import opened Supervisor

  predicate IsStart(t: Task) {
    t.EnsureTask? || t.RestartTask?
  }

  predicate IsRestartTimer(t: Timer) {
    t.CrashRestart? || t.NetworkRestart?
  }

  /** The main thread has raised desiredRunning and is about to queue the start task. */
  predicate SubmittingStart(m: Main) {
    m.Submitting? && IsStart(m.task)
  }

  ghost predicate StartQueued(q: seq<Task>) {
    exists j :: 0 <= j < |q| && IsStart(q[j])
  }

  ghost predicate StartPending(s: State) {
    SubmittingStart(s.main) || StartQueued(s.executor.queue)
  }

  ghost predicate RestartArmed(timers: map<TimerId, Timer>) {
    exists id :: id in timers && IsRestartTimer(timers[id])
  }

  /** Points of startProxy and its callers from which a wanted start is not lost. */
  predicate Starting(c: Control) {
    match c
    case EnsureEntry => true
    case EnsureAlive => true
    case RestartEntry => true
    case ArmEntry => true
    case Terminate(thenStart) => thenStart
    case Destroy(_, thenStart) => thenStart
    case StartEntry => true
    case Spawning => true
    case Recheck(_) => true
    case Install(_) => true
    case CrashEntry => true
    case ExitCleared => true
    case _ => false
  }

  /** Points at which the control thread gives the child up. */
  predicate Stopping(c: Control) {
    match c
    case StopEntry => true
    case Terminate(thenStart) => !thenStart
    case Destroy(_, thenStart) => !thenStart
    case Discard(_) => true
    case _ => false
  }

  // Part 1: generations and notices.

  predicate Notice(installed: map<Pid, nat>, p: Pid, g: nat) {
    p in installed && installed[p] == g
  }

  predicate TaskNotice(installed: map<Pid, nat>, t: Task) {
    t.ExitTask? ==> Notice(installed, t.pid, t.generation)
  }

  predicate TimerNotice(installed: map<Pid, nat>, t: Timer) {
    t.Stable? ==> Notice(installed, t.pid, t.generation)
  }

  predicate ControlNotice(installed: map<Pid, nat>, c: Control) {
    c.ExitEntry? || c.StableEntry? || c.Launch? ==> Notice(installed, c.pid, c.generation)
  }

  /** Every exit notice and stability timer carries the generation its child was installed under. */
  ghost predicate NoticesInv(installed: map<Pid, nat>, e: Executor, waiters: set<(Pid, nat)>, c: Control) {
    && (forall w <- waiters :: Notice(installed, w.0, w.1))
    && (forall t <- e.queue :: TaskNotice(installed, t))
    && (forall id <- e.timers :: TimerNotice(installed, e.timers[id]))
    && ControlNotice(installed, c)
  }

  predicate Dead(children: map<Pid, Child>, p: Pid) {
    p in children && !children[p].alive
  }

  /** An exit notice is posted only for a child that has exited. */
  ghost predicate DeadInv(children: map<Pid, Child>, q: seq<Task>, c: Control) {
    && (forall t <- q :: t.ExitTask? ==> Dead(children, t.pid))
    && (c.ExitEntry? ==> Dead(children, c.pid))
  }

  ghost predicate GenerationInv(service: Service, w: World) {
    && (forall p <- w.installedAs :: p in w.children && w.installedAs[p] <= service.generation)
    && (service.process.Some? ==> Notice(w.installedAs, service.process.value, service.generation))
  }

  // Part 2: who holds a child that nobody has asked to stop.

  /** startProxy has spawned a child and has neither installed nor killed it. */
  predicate Unplaced(c: Control) {
    c.Recheck? || c.Discard? || c.Install?
  }

  predicate Holding(c: Control, p: Pid) {
    Unplaced(c) && c.pid == p
  }

  ghost predicate HoldsInv(service: Service, w: World, c: Control, m: Main) {
    var process := service.process;
    && (m.DestroyKill? ==>
          && service.destroyed && m.pid in w.installedAs && process != Some(m.pid)
          && (Dead(w.children, m.pid) || (process == None && !c.Destroy? && !c.Spawning? && !Unplaced(c))))
    && (Unplaced(c) ==>
          c.pid in w.children && c.pid !in w.installedAs && !w.children[c.pid].destroyRequested)
    && (process.Some? ==> process.value in w.children && !w.children[process.value].destroyRequested)
    && (c.Destroy? ==> process == None)
    && (process.Some? && (c.StartEntry? || c.Spawning? || Unplaced(c)) ==>
          !w.children[process.value].alive)
  }

  predicate Held(process: Option<Pid>, c: Control, m: Main, p: Pid) {
    || process == Some(p)
    || Holding(c, p)
    || (c.Destroy? && c.pid == p)
    || m == DestroyKill(p)
  }

  predicate Loose(child: Child) {
    child.alive && !child.destroyRequested
  }

  ghost predicate HeldInv(process: Option<Pid>, children: map<Pid, Child>, c: Control, m: Main) {
    forall p <- children :: Loose(children[p]) ==> Held(process, c, m, p)
  }

  // Part 3: restart timers.

  predicate TimerOk(t: Timer) {
    match t
    case NetworkRestart(delay) => delay == NETWORK_RESTART_DELAY_MS
    case CrashRestart(delay) => 1000 <= delay <= 30000
    case Stable(_, _) => true
  }

  /** At most one restart timer is outstanding, and it is the one pendingRestart names. */
  ghost predicate TimersInv(e: Executor, pending: Option<TimerId>) {
    && (forall id <- e.timers :: id < e.nextTimer && TimerOk(e.timers[id]))
    && (pending.Some? ==> pending.value < e.nextTimer)
    && (forall id <- e.timers :: IsRestartTimer(e.timers[id]) ==> pending == Some(id))
  }

  // Part 4: the main thread, and the order of Stop and start tasks.

  predicate Destroying(m: Main) {
    m.DestroyCancel? || m.DestroyTerminate? || m.DestroyKill? || m.DestroyShutdown? || m.Gone?
  }

  ghost predicate MainInv(service: Service, e: Executor, w: World, m: Main) {
    && service.destroyed == Destroying(m)
    && (m.Submitting? ==>
          (IsStart(m.task) && service.desiredRunning) || (m.task == StopTask && !service.desiredRunning))
    && (m == Gone ==> e.queue == [] && e.timers == map[] && w.waiters == {})
  }

  ghost predicate StartAfter(q: seq<Task>, i: int) {
    exists j :: i < j < |q| && 0 <= j && IsStart(q[j])
  }

  ghost predicate StopsFollowed(q: seq<Task>) {
    forall i | 0 <= i < |q| && q[i].StopTask? :: StartAfter(q, i)
  }

  /** While the proxy is wanted, every Stop, queued or running, has a start behind it. */
  ghost predicate StopsInv(s: State) {
    Wanted(s) ==>
      && (SubmittingStart(s.main) || StopsFollowed(s.executor.queue))
      && (Stopping(s.control) ==> StartPending(s))
  }

  // Part 5: the exit notice of the current child is never lost.

  ghost predicate NoticeInFlight(s: State, p: Pid, g: nat) {
    || s.control == Launch(p, g)
    || (p, g) in s.world.waiters
    || ExitTask(p, g) in s.executor.queue
    || s.control == ExitEntry(p, g)
  }

  ghost predicate ExitInv(s: State) {
    !s.service.destroyed ==>
      && (s.service.process.Some? ==> NoticeInFlight(s, s.service.process.value, s.service.generation))
      && (s.control.Launch? ==> IsCurrent(s, s.control.pid, s.control.generation))
  }

  // Part 6: something is still going to keep the proxy up.

  ghost predicate Covered(s: State) {
    StartPending(s) || RestartArmed(s.executor.timers) || Starting(s.control) || s.service.process.Some?
  }

  ghost predicate CoverInv(s: State) {
    Wanted(s) && s.hasConfig ==> Covered(s)
  }

  ghost predicate ChildInv(s: State) {
    && NoticesInv(s.world.installedAs, s.executor, s.world.waiters, s.control)
    && DeadInv(s.world.children, s.executor.queue, s.control)
    && GenerationInv(s.service, s.world)
    && HoldsInv(s.service, s.world, s.control, s.main)
    && HeldInv(s.service.process, s.world.children, s.control, s.main)
  }

  ghost predicate RestartInv(s: State) {
    && TimersInv(s.executor, s.service.pendingRestart)
    && MainInv(s.service, s.executor, s.world, s.main)
    && StopsInv(s) && ExitInv(s) && CoverInv(s)
  }

  ghost predicate Inv(s: State) {
    ChildInv(s) && RestartInv(s)
  }

  lemma InitInv(s: State)
    requires Init(s)
    ensures Inv(s)
  {
  }

  // Queue facts, one for each end of the queue.

  lemma TakeFromQueue(q: seq<Task>)
    requires q != []
    ensures StartQueued(q) ==> IsStart(q[0]) || StartQueued(q[1..])
    ensures StopsFollowed(q) ==> StopsFollowed(q[1..])
    ensures StopsFollowed(q) && q[0].StopTask? ==> StartQueued(q[1..])
    ensures forall t :: t in q ==> t == q[0] || t in q[1..]
  {
    var rest := q[1..];
    forall j | 0 < j < |q| ensures rest[j - 1] == q[j] {}
    if StopsFollowed(q) {
      forall i | 0 <= i < |rest| && rest[i].StopTask? ensures StartAfter(rest, i) {
        assert StartAfter(q, i + 1);
        var j :| i + 1 < j < |q| && IsStart(q[j]);
        assert IsStart(rest[j - 1]);
      }
      if q[0].StopTask? {
        assert StartAfter(q, 0);
        var j :| 0 < j < |q| && IsStart(q[j]);
        assert IsStart(rest[j - 1]);
      }
    }
    if StartQueued(q) && !IsStart(q[0]) {
      var j :| 0 <= j < |q| && IsStart(q[j]);
      assert IsStart(rest[j - 1]);
    }
  }

  lemma AddToQueue(q: seq<Task>, t: Task)
    ensures StartQueued(q) || IsStart(t) ==> StartQueued(q + [t])
    ensures IsStart(t) || (StopsFollowed(q) && !t.StopTask?) ==> StopsFollowed(q + [t])
  {
    var q' := q + [t];
    assert q'[|q|] == t;
    if StartQueued(q) {
      var j :| 0 <= j < |q| && IsStart(q[j]);
      assert IsStart(q'[j]);
    }
    if IsStart(t) {
      forall i | 0 <= i < |q'| && q'[i].StopTask? ensures StartAfter(q', i) {
        assert IsStart(q'[|q|]);
      }
    } else if StopsFollowed(q) && !t.StopTask? {
      forall i | 0 <= i < |q'| && q'[i].StopTask? ensures StartAfter(q', i) {
        assert StartAfter(q, i);
        var j :| i < j < |q| && IsStart(q[j]);
        assert IsStart(q'[j]);
      }
    }
  }

  lemma TakeTimer(timers: map<TimerId, Timer>, id: TimerId)
    requires id in timers
    ensures RestartArmed(timers) ==> IsRestartTimer(timers[id]) || RestartArmed(timers - {id})
  {
    if RestartArmed(timers) && !IsRestartTimer(timers[id]) {
      var other :| other in timers && IsRestartTimer(timers[other]);
      assert other in timers - {id};
    }
  }

  // Preservation by the control thread, a few of its points at a time.

  lemma TestsKeepChildren(s: State)
    requires ChildInv(s)
    requires s.control.EnsureEntry? || s.control.EnsureAlive? || s.control.StartEntry? || s.control.Recheck? || s.control.ExitCleared?
    ensures ChildInv(ControlNext(s))
  {
  }

  lemma TestsKeepRestarts(s: State)
    requires RestartInv(s)
    requires s.control.EnsureEntry? || s.control.EnsureAlive? || s.control.StartEntry? || s.control.Recheck? || s.control.ExitCleared?
    ensures RestartInv(ControlNext(s))
  {
  }

  lemma CancelsKeepChildren(s: State)
    requires ChildInv(s)
    requires s.control.StopEntry? || s.control.RestartEntry?
    ensures ChildInv(ControlNext(s))
  {
    var s' := ControlNext(s);
    assert s'.world == s.world && s'.executor.queue == s.executor.queue;
    assert s'.service.process == s.service.process && s'.service.generation == s.service.generation;
  }

  lemma CancelsKeepRestarts(s: State)
    requires RestartInv(s)
    requires s.control.StopEntry? || s.control.RestartEntry?
    ensures RestartInv(ControlNext(s))
  {
  }

  lemma ArmKeepsChildren(s: State)
    requires ChildInv(s)
    requires s.control.ArmEntry?
    ensures ChildInv(ControlNext(s))
  {
    var s' := ControlNext(s);
    assert s'.world == s.world && s'.executor.queue == s.executor.queue;
    assert s'.service.process == s.service.process && s'.service.generation == s.service.generation;
  }

  lemma CrashKeepsChildren(s: State)
    requires ChildInv(s)
    requires s.control.CrashEntry?
    ensures ChildInv(ControlNext(s))
  {
    var s' := ControlNext(s);
    assert s'.world == s.world && s'.executor.queue == s.executor.queue;
    assert s'.service.process == s.service.process && s'.service.generation == s.service.generation;
  }

  lemma ArmKeepsRestarts(s: State)
    requires RestartInv(s)
    requires s.control.ArmEntry?
    ensures RestartInv(ControlNext(s))
  {
  }

  lemma CrashKeepsRestarts(s: State)
    requires RestartInv(s)
    requires s.control.CrashEntry?
    ensures RestartInv(ControlNext(s))
  {
    RestartPolicy.DelayIsMonotone(0, s.service.failures);
  }

  lemma TerminateKeepChildren(s: State)
    requires ChildInv(s)
    requires s.control.Terminate? || s.control.Destroy? || s.control.Discard?
    ensures ChildInv(ControlNext(s))
  {
  }

  lemma TerminateKeepRestarts(s: State)
    requires RestartInv(s)
    requires s.control.Terminate? || s.control.Destroy? || s.control.Discard?
    ensures RestartInv(ControlNext(s))
  {
  }

  lemma InstallKeepChildren(s: State)
    requires ChildInv(s)
    requires s.control.Install?
    ensures ChildInv(ControlNext(s))
  {
  }

  lemma InstallKeepRestarts(s: State)
    requires RestartInv(s)
    requires s.control.Install?
    ensures RestartInv(ControlNext(s))
  {
  }

  lemma LaunchKeepChildren(s: State)
    requires ChildInv(s)
    requires s.control.Launch?
    ensures ChildInv(ControlNext(s))
  {
  }

  lemma LaunchKeepRestarts(s: State)
    requires RestartInv(s)
    requires s.control.Launch?
    ensures RestartInv(ControlNext(s))
  {
  }

  lemma NoticesKeepChildren(s: State)
    requires ChildInv(s)
    requires s.control.ExitEntry? || s.control.StableEntry?
    ensures ChildInv(ControlNext(s))
  {
  }

  lemma NoticesKeepRestarts(s: State)
    requires RestartInv(s)
    requires s.control.ExitEntry? || s.control.StableEntry?
    ensures RestartInv(ControlNext(s))
  {
  }

  lemma ControlKeepsInv(s: State)
    requires Inv(s)
    ensures Inv(ControlNext(s))
  {
    match s.control {
      case Idle =>
      case Spawning =>
      case EnsureEntry => TestsKeepChildren(s); TestsKeepRestarts(s);
      case EnsureAlive => TestsKeepChildren(s); TestsKeepRestarts(s);
      case StartEntry => TestsKeepChildren(s); TestsKeepRestarts(s);
      case Recheck(_) => TestsKeepChildren(s); TestsKeepRestarts(s);
      case ExitCleared => TestsKeepChildren(s); TestsKeepRestarts(s);
      case StopEntry => CancelsKeepChildren(s); CancelsKeepRestarts(s);
      case RestartEntry => CancelsKeepChildren(s); CancelsKeepRestarts(s);
      case ArmEntry => ArmKeepsChildren(s); ArmKeepsRestarts(s);
      case CrashEntry => CrashKeepsChildren(s); CrashKeepsRestarts(s);
      case Terminate(_) => TerminateKeepChildren(s); TerminateKeepRestarts(s);
      case Destroy(_, _) => TerminateKeepChildren(s); TerminateKeepRestarts(s);
      case Discard(_) => TerminateKeepChildren(s); TerminateKeepRestarts(s);
      case Install(_) => InstallKeepChildren(s); InstallKeepRestarts(s);
      case Launch(_, _) => LaunchKeepChildren(s); LaunchKeepRestarts(s);
      case ExitEntry(_, _) => NoticesKeepChildren(s); NoticesKeepRestarts(s);
      case StableEntry(_, _) => NoticesKeepChildren(s); NoticesKeepRestarts(s);
    }
  }

  // Preservation by the main thread, the queue and the environment.

  lemma IntentsKeepChildren(s: State, a: Action)
    requires ChildInv(s) && Enabled(s, a)
    requires a.StartIntent? || a.RestartIntent? || a.StopIntent? || a.DestroyService? || a.NetworkChanged?
    ensures ChildInv(Step(s, a))
  {
  }

  lemma IntentsKeepRestarts(s: State, a: Action)
    requires RestartInv(s) && Enabled(s, a)
    requires a.StartIntent? || a.RestartIntent? || a.StopIntent? || a.DestroyService? || a.NetworkChanged?
    ensures RestartInv(Step(s, a))
  {
  }

  lemma SubmissionsKeepChildren(s: State, a: Action)
    requires Inv(s) && Enabled(s, a)
    requires a.SubmitIntent? || a.WaiterPosts? || a.NetworkSubmits?
    ensures ChildInv(Step(s, a))
  {
    var t := match a
      case SubmitIntent => s.main.task
      case WaiterPosts(p, g) => ExitTask(p, g)
      case _ => ArmNetworkTask;
    assert a.WaiterPosts? ==> Notice(s.world.installedAs, (a.pid, a.generation).0, (a.pid, a.generation).1);
    assert forall u | u in s.executor.queue + [t] :: u in s.executor.queue || u == t;
  }

  lemma SubmissionsKeepRestarts(s: State, a: Action)
    requires RestartInv(s) && Enabled(s, a)
    requires a.SubmitIntent? || a.WaiterPosts? || a.NetworkSubmits?
    ensures RestartInv(Step(s, a))
  {
    match a {
      case SubmitIntent => AddToQueue(s.executor.queue, s.main.task);
      case WaiterPosts(p, g) => AddToQueue(s.executor.queue, ExitTask(p, g));
      case NetworkSubmits => AddToQueue(s.executor.queue, ArmNetworkTask);
    }
  }

  lemma TakesKeepChildren(s: State, a: Action)
    requires ChildInv(s) && Enabled(s, a)
    requires a.TakeTask? || a.FireTimer?
    ensures ChildInv(Step(s, a))
  {
    if a == TakeTask {
      assert s.executor.queue[0] in s.executor.queue;
      assert forall t | t in s.executor.queue[1..] :: t in s.executor.queue;
    }
  }

  lemma TakesKeepRestarts(s: State, a: Action)
    requires RestartInv(s) && Enabled(s, a)
    requires a.TakeTask? || a.FireTimer?
    ensures RestartInv(Step(s, a))
  {
    if a == TakeTask {
      TakeFromQueue(s.executor.queue);
    } else {
      TakeTimer(s.executor.timers, a.id);
    }
  }

  lemma DestroyTerminateKeepsChildren(s: State)
    requires ChildInv(s)
    requires s.service.destroyed && (s.main.DestroyTerminate? || s.main.DestroyKill?)
    ensures ChildInv(DestroyNext(s))
  {
  }

  lemma DestroyClearsKeepChildren(s: State)
    requires ChildInv(s)
    requires s.main.DestroyCancel? || s.main.DestroyShutdown?
    ensures ChildInv(DestroyNext(s))
  {
  }

  lemma DestroysKeepChildren(s: State, a: Action)
    requires ChildInv(s) && Enabled(s, a)
    requires a.DestroyStep?
    ensures ChildInv(Step(s, a))
  {
    if s.main.DestroyTerminate? || s.main.DestroyKill? {
      DestroyTerminateKeepsChildren(s);
    } else if s.main.DestroyCancel? || s.main.DestroyShutdown? {
      DestroyClearsKeepChildren(s);
    }
  }

  lemma DestroysKeepRestarts(s: State, a: Action)
    requires RestartInv(s) && Enabled(s, a)
    requires a.DestroyStep?
    ensures RestartInv(Step(s, a))
  {
  }

  lemma SpawnsKeepChildren(s: State, a: Action)
    requires ChildInv(s) && Enabled(s, a)
    requires a.SpawnChild? || a.SpawnFails? || a.ChildExits?
    ensures ChildInv(Step(s, a))
  {
  }

  lemma SpawnsKeepRestarts(s: State, a: Action)
    requires RestartInv(s) && Enabled(s, a)
    requires a.SpawnChild? || a.SpawnFails? || a.ChildExits?
    ensures RestartInv(Step(s, a))
  {
  }

  lemma StepKeepsInv(s: State, a: Action)
    requires Inv(s) && Enabled(s, a)
    ensures Inv(Step(s, a))
  {
    match a {
      case StartIntent => IntentsKeepChildren(s, a); IntentsKeepRestarts(s, a);
      case RestartIntent => IntentsKeepChildren(s, a); IntentsKeepRestarts(s, a);
      case StopIntent => IntentsKeepChildren(s, a); IntentsKeepRestarts(s, a);
      case DestroyService => IntentsKeepChildren(s, a); IntentsKeepRestarts(s, a);
      case NetworkChanged => IntentsKeepChildren(s, a); IntentsKeepRestarts(s, a);
      case SubmitIntent => SubmissionsKeepChildren(s, a); SubmissionsKeepRestarts(s, a);
      case WaiterPosts(_, _) => SubmissionsKeepChildren(s, a); SubmissionsKeepRestarts(s, a);
      case NetworkSubmits => SubmissionsKeepChildren(s, a); SubmissionsKeepRestarts(s, a);
      case TakeTask => TakesKeepChildren(s, a); TakesKeepRestarts(s, a);
      case FireTimer(_) => TakesKeepChildren(s, a); TakesKeepRestarts(s, a);
      case DestroyStep => DestroysKeepChildren(s, a); DestroysKeepRestarts(s, a);
      case SpawnChild(_) => SpawnsKeepChildren(s, a); SpawnsKeepRestarts(s, a);
      case SpawnFails => SpawnsKeepChildren(s, a); SpawnsKeepRestarts(s, a);
      case ChildExits(_) => SpawnsKeepChildren(s, a); SpawnsKeepRestarts(s, a);
      case ControlStep => ControlKeepsInv(s);
    }
  }
}
