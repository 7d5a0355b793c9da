/**
 The service object itself: the fields of ProxyService.java and its methods, cut at the
 points where another thread may run. Each method is proved to change the object
 exactly as the matching action of the state machine, so the theorems about runs are
 theorems about this object.
 */
module ProxyService {
  import opened Base
  import opened Supervisor
  import opened SupervisorInvariant
  import RestartPolicy

  class ProxyService {
    // Fields of the source.
    var process: Option<Pid>
    var processGeneration: nat
    var desiredRunning: bool
    var destroyed: bool
    var pendingRestart: Option<TimerId>
    const restartPolicy: RestartPolicy.RestartPolicy
    const hasConfig: bool

    // The control executor.
    var queue: seq<Task>
    var timers: map<TimerId, Timer>
    var nextTimer: TimerId

    // The world around it.
    var children: map<Pid, Child>
    var waiters: set<(Pid, nat)>
    var networkCalls: nat
    ghost var installedAs: map<Pid, nat>

    // Where the main thread and the control thread stand.
    var main: Main
    var control: Control

    ghost function ServiceView(): Service
      reads this, restartPolicy
    {
      Service(process, processGeneration, desiredRunning, destroyed, pendingRestart, restartPolicy.failures)
    }

    ghost function ExecutorView(): Executor
      reads this
    {
      Executor(queue, timers, nextTimer)
    }

    ghost function WorldView(): World
      reads this
    {
      World(children, waiters, networkCalls, installedAs)
    }

    ghost function View(): State
      reads this, restartPolicy
    {
      State(hasConfig, ServiceView(), ExecutorView(), WorldView(), main, control)
    }

    constructor (config: bool)
      ensures Init(View()) && hasConfig == config && fresh(restartPolicy)
    {
      hasConfig := config;
      restartPolicy := new RestartPolicy.RestartPolicy();
      process, processGeneration, desiredRunning, destroyed, pendingRestart := None, 0, false, false, None;
      queue, timers, nextTimer := [], map[], 0;
      children, waiters, networkCalls, installedAs := map[], {}, 0, map[];
      main, control := Waiting, Idle;
    }

    // Main thread.

    /** onStartCommand up to the submission of its task. */
    method OnStartCommand(stop: bool, restart: bool)
      requires main == Waiting
      modifies this
      ensures View() == Step(old(View()), if stop then StopIntent else if restart then RestartIntent else StartIntent)
    {
      if stop {
        desiredRunning := false;
        main := Submitting(StopTask);
        return;
      }
      desiredRunning := true;
      if restart {
        main := Submitting(RestartTask);
      } else {
        main := Submitting(EnsureTask);
      }
    }

    method SubmitControl(task: Task)
      modifies this`queue
      ensures View() == Submitted(old(View()), task)
    {
      if destroyed {
        return;
      }
      queue := queue + [task];
    }

    method SubmitIntended()
      requires main.Submitting?
      modifies this
      ensures View() == Step(old(View()), SubmitIntent)
    {
      SubmitControl(main.task);
      main := Waiting;
    }

    method OnDestroy()
      requires main == Waiting
      modifies this
      ensures View() == Step(old(View()), DestroyService)
    {
      destroyed := true;
      main := DestroyCancel;
    }

    method OnDestroyNext()
      requires destroyed && main != Gone
      modifies this
      ensures View() == Step(old(View()), DestroyStep)
    {
      match main {
        case DestroyCancel =>
          CancelPending();
          main := DestroyTerminate;
        case DestroyTerminate =>
          var running := Release();
          main := if running.Some? then DestroyKill(running.value) else DestroyShutdown;
        case DestroyKill(p) =>
          Kill(p);
          main := DestroyShutdown;
        case DestroyShutdown =>
          queue, timers, waiters := [], map[], {};
          main := Gone;
        case _ =>
      }
    }

    // Shared pieces.

    method CancelPending()
      modifies this`timers, this`pendingRestart
      ensures View() == CancelPendingRestart(old(View()))
    {
      if pendingRestart.Some? {
        timers := timers - {pendingRestart.value};
        pendingRestart := None;
      }
    }

    method Schedule(timer: Timer) returns (handle: Option<TimerId>)
      modifies this`timers, this`nextTimer
      ensures View() == Scheduled(old(View()), timer)
      ensures handle == if main == Gone then None else Some(old(nextTimer))
    {
      if main == Gone {
        return None;
      }
      timers := timers[nextTimer := timer];
      handle := Some(nextTimer);
      nextTimer := nextTimer + 1;
    }

    method Rearm(timer: Timer)
      modifies this`timers, this`pendingRestart, this`nextTimer
      ensures View() == ArmRestart(old(View()), timer)
    {
      CancelPending();
      var handle := Schedule(timer);
      if handle.Some? {
        pendingRestart := handle;
      }
    }

    /** The lock region of terminateWireproxy. */
    method Release() returns (running: Option<Pid>)
      modifies this`process, this`processGeneration
      ensures running == old(process)
      ensures View() == Released(old(View()))
    {
      running := process;
      process := None;
      processGeneration := processGeneration + 1;
    }

    method Kill(p: Pid)
      modifies this`children
      ensures View() == Killed(old(View()), p)
    {
      if p in children {
        children := children[p := children[p].(destroyRequested := true)];
      }
    }

    // Control thread.

    method TakeNextTask()
      requires control == Idle && queue != []
      modifies this
      ensures View() == Step(old(View()), TakeTask)
    {
      var task := queue[0];
      queue := queue[1..];
      match task {
        case EnsureTask => control := EnsureEntry;
        case RestartTask => control := RestartEntry;
        case StopTask => control := StopEntry;
        case ArmNetworkTask => control := ArmEntry;
        case ExitTask(p, g) => control := ExitEntry(p, g);
      }
    }

    method RunTimer(id: TimerId)
      requires control == Idle && id in timers
      modifies this
      ensures View() == Step(old(View()), FireTimer(id))
    {
      var timer := timers[id];
      timers := timers - {id};
      match timer {
        case CrashRestart(_) => control := EnsureEntry;
        case NetworkRestart(_) => control := RestartEntry;
        case Stable(p, g) => control := StableEntry(p, g);
      }
    }

    method EnsureProxyRunning()
      requires control.EnsureEntry? || control.EnsureAlive?
      modifies this
      ensures View() == EnsureNext(old(View()))
    {
      if control.EnsureEntry? {
        if !desiredRunning || destroyed {
          control := Idle;
          return;
        }
        control := EnsureAlive;
        return;
      }
      var current := process;
      if current.Some? && current.value in children && children[current.value].alive {
        control := Idle;
        return;
      }
      control := StartEntry;
    }

    /** The flag and config checks of startProxy before the spawn. */
    method StartProxy()
      requires control == StartEntry
      modifies this
      ensures View() == ControlNext(old(View()))
    {
      if !desiredRunning || destroyed {
        control := Idle;
        return;
      }
      if !hasConfig {
        control := Idle;
        return;
      }
      control := Spawning;
    }

    method Spawned(p: Pid)
      requires control == Spawning && p !in children
      modifies this
      ensures View() == Step(old(View()), SpawnChild(p))
    {
      children := children[p := Child(true, false)];
      control := Recheck(p);
    }

    method SpawnFailed()
      requires control == Spawning
      modifies this
      ensures View() == Step(old(View()), SpawnFails)
    {
      control := CrashEntry;
    }

    /** startProxy after the spawn: look at the flags again, install or discard, then start the watchers. */
    method StartProxyRest()
      requires control.Recheck? || control.Discard? || control.Install? || control.Launch?
      modifies this
      ensures View() == ControlNext(old(View()))
    {
      match control {
        case Recheck(p) =>
          if !desiredRunning || destroyed {
            control := Discard(p);
          } else {
            control := Install(p);
          }
        case Discard(p) =>
          Kill(p);
          control := Idle;
        case Install(p) =>
          process := Some(p);
          processGeneration := processGeneration + 1;
          installedAs := installedAs[p := processGeneration];
          control := Launch(p, processGeneration);
        case Launch(_, _) =>
          StartWatchers();
      }
    }

    /** The waiter thread and the stability timer of a child just installed. */
    method StartWatchers()
      requires control.Launch?
      modifies this
      ensures View() == ControlNext(old(View()))
    {
      if main != Gone {
        waiters := waiters + {(control.pid, control.generation)};
        var _ := Schedule(Stable(control.pid, control.generation));
      }
      control := Idle;
    }

    method RestartProxy()
      requires control == RestartEntry
      modifies this, restartPolicy
      ensures View() == RestartNext(old(View()))
    {
      if !desiredRunning || destroyed {
        control := Idle;
        return;
      }
      CancelPending();
      restartPolicy.Reset();
      control := Terminate(true);
    }

    method TerminateWireproxy()
      requires control.Terminate? || control.Destroy?
      modifies this
      ensures View() == TerminateNext(old(View()), old(control.thenStart))
    {
      var next := if control.thenStart then StartEntry else Idle;
      if control.Destroy? {
        Kill(control.pid);
        control := next;
        return;
      }
      var running := Release();
      if running == None {
        control := next;
        return;
      }
      control := Destroy(running.value, control.thenStart);
    }

    /** The Stop task up to terminateWireproxy. */
    method StopProxy()
      requires control == StopEntry
      modifies this
      ensures View() == ControlNext(old(View()))
    {
      CancelPending();
      control := Terminate(false);
    }

    method ArmNetworkRestart()
      requires control == ArmEntry
      modifies this
      ensures View() == ControlNext(old(View()))
    {
      Rearm(NetworkRestart(NETWORK_RESTART_DELAY_MS));
      control := Idle;
    }

    method ScheduleCrashRestart()
      requires control == CrashEntry
      modifies this, restartPolicy
      ensures View() == CrashNext(old(View()))
    {
      if !desiredRunning || destroyed {
        control := Idle;
        return;
      }
      var delay := restartPolicy.NextDelayMs();
      Rearm(CrashRestart(delay));
      control := Idle;
    }

    method HandleProcessExit()
      requires control.ExitEntry? || control.ExitCleared?
      modifies this
      ensures View() == ControlNext(old(View()))
    {
      if control.ExitCleared? {
        control := if desiredRunning && !destroyed then CrashEntry else Idle;
        return;
      }
      if process != Some(control.pid) || processGeneration != control.generation {
        control := Idle;
        return;
      }
      process := None;
      control := ExitCleared;
    }

    method MarkProcessStable()
      requires control.StableEntry?
      modifies this, restartPolicy
      ensures View() == ControlNext(old(View()))
    {
      var p := control.pid;
      if process == Some(p) && processGeneration == control.generation && p in children && children[p].alive {
        restartPolicy.Reset();
      }
      control := Idle;
    }

    /** One step of whatever task is running. */
    method ControlThreadStep()
      requires control != Idle && control != Spawning
      modifies this, restartPolicy
      ensures View() == Step(old(View()), ControlStep)
    {
      match control {
        case StopEntry => StopProxy();
        case EnsureEntry => EnsureProxyRunning();
        case EnsureAlive => EnsureProxyRunning();
        case RestartEntry => RestartProxy();
        case ArmEntry => ArmNetworkRestart();
        case Terminate(_) => TerminateWireproxy();
        case Destroy(_, _) => TerminateWireproxy();
        case StartEntry => StartProxy();
        case Recheck(_) => StartProxyRest();
        case Discard(_) => StartProxyRest();
        case Install(_) => StartProxyRest();
        case Launch(_, _) => StartProxyRest();
        case CrashEntry => ScheduleCrashRestart();
        case ExitEntry(_, _) => HandleProcessExit();
        case ExitCleared => HandleProcessExit();
        case StableEntry(_, _) => MarkProcessStable();
      }
    }

    // Waiter threads and network callbacks.

    /** The operating system ends a child. */
    method ChildExit(p: Pid)
      requires p in children && children[p].alive
      modifies this`children
      ensures View() == Step(old(View()), ChildExits(p))
    {
      children := children[p := children[p].(alive := false)];
    }

    /** waitForProcess once its child has exited. */
    method WaitForProcess(p: Pid, g: nat)
      requires (p, g) in waiters && !(p in children && children[p].alive)
      modifies this
      ensures View() == Step(old(View()), WaiterPosts(p, g))
    {
      waiters := waiters - {(p, g)};
      SubmitControl(ExitTask(p, g));
    }

    /** scheduleNetworkRestart: the flag check, then the submission. */
    method ScheduleNetworkRestart()
      modifies this`networkCalls
      ensures View() == Step(old(View()), NetworkChanged)
    {
      if !desiredRunning || destroyed {
        return;
      }
      networkCalls := networkCalls + 1;
    }

    method SubmitNetworkRestart()
      requires networkCalls > 0
      modifies this
      ensures View() == Step(old(View()), NetworkSubmits)
    {
      networkCalls := networkCalls - 1;
      SubmitControl(ArmNetworkTask);
    }

    /** Any enabled action, performed on the object, keeps the invariant. */
    method Perform(a: Action)
      requires Inv(View()) && Enabled(View(), a)
      modifies this, restartPolicy
      ensures View() == Step(old(View()), a) && Inv(View())
    {
      StepKeepsInv(View(), a);
      match a {
        case StartIntent => OnStartCommand(false, false);
        case RestartIntent => OnStartCommand(false, true);
        case StopIntent => OnStartCommand(true, false);
        case SubmitIntent => SubmitIntended();
        case DestroyService => OnDestroy();
        case DestroyStep => OnDestroyNext();
        case TakeTask => TakeNextTask();
        case FireTimer(id) => RunTimer(id);
        case ControlStep => ControlThreadStep();
        case SpawnChild(p) => Spawned(p);
        case SpawnFails => SpawnFailed();
        case ChildExits(p) => ChildExit(p);
        case WaiterPosts(p, g) => WaitForProcess(p, g);
        case NetworkChanged => ScheduleNetworkRestart();
        case NetworkSubmits => SubmitNetworkRestart();
      }
    }

    /** Any run, performed on the object: it ends where the state machine says. */
    method PerformAll(actions: seq<Action>)
      requires Inv(View()) && CanRun(View(), actions)
      modifies this, restartPolicy
      ensures View() == After(old(View()), actions) && Inv(View())
    {
      var i := 0;
      while i < |actions|
        invariant 0 <= i <= |actions|
        invariant Inv(View()) && CanRun(View(), actions[i..])
        invariant After(View(), actions[i..]) == After(old(View()), actions)
      {
        assert actions[i..][1..] == actions[i + 1..];
        Perform(actions[i]);
        i := i + 1;
      }
    }
  }
}
