/**
 The process supervisor of ProxyService.java as a state machine.

 Three parties share its fields. The main thread runs onStartCommand and onDestroy.
 One control thread takes tasks from a FIFO queue or runs a timer that has fallen due.
 The environment lets children exit, lets waiter threads post exit notices and
 delivers network callbacks. One action is one uninterrupted access to the shared
 fields, so every flag check, lock region, spawn and kill can be interleaved with
 the steps of the other parties.
 */
module Supervisor {
  import opened Base
  import RestartPolicy

  const NETWORK_RESTART_DELAY_MS := 750

  type Pid = nat
  type TimerId = nat

  /** What submitControl puts on the queue of the control executor. */
  datatype Task =
    | EnsureTask
    | RestartTask
    | StopTask
    | ArmNetworkTask
    | ExitTask(pid: Pid, generation: nat)

  /** What is scheduled with a delay on the same executor. */
  datatype Timer =
    | CrashRestart(delayMs: int)
    | NetworkRestart(delayMs: int)
    | Stable(pid: Pid, generation: nat)

  /** Where the control thread stands; `thenStart` tells restartProxy from stopProxy. */
  datatype Control =
    | Idle
    | StopEntry
    | EnsureEntry
    | EnsureAlive
    | RestartEntry
    | ArmEntry
    | Terminate(thenStart: bool)
    | Destroy(pid: Pid, thenStart: bool)
    | StartEntry
    | Spawning
    | Recheck(pid: Pid)
    | Discard(pid: Pid)
    | Install(pid: Pid)
    | Launch(pid: Pid, generation: nat)
    | CrashEntry
    | ExitEntry(pid: Pid, generation: nat)
    | ExitCleared
    | StableEntry(pid: Pid, generation: nat)

  /** Where the main thread stands. */
  datatype Main =
    | Waiting
    | Submitting(task: Task)
    | DestroyCancel
    | DestroyTerminate
    | DestroyKill(pid: Pid)
    | DestroyShutdown
    | Gone

  /** An operating-system process; destroyRequested once destroy() was called on it. */
  datatype Child = Child(alive: bool, destroyRequested: bool)

  /** The fields of the service object. */
  datatype Service = Service(
    process: Option<Pid>,
    generation: nat,
    desiredRunning: bool,
    destroyed: bool,
    pendingRestart: Option<TimerId>,
    failures: nat)

  /** The control executor: its queue, its delayed tasks and the next handle it will hand out. */
  datatype Executor = Executor(queue: seq<Task>, timers: map<TimerId, Timer>, nextTimer: TimerId)

  /**
   Everything outside the object: the children, the waiter threads with the notice
   each will post, and the network callbacks past their flag check. `installedAs` is
   history: the generation each child was installed under.
   */
  datatype World = World(
    children: map<Pid, Child>,
    waiters: set<(Pid, nat)>,
    networkCalls: nat,
    installedAs: map<Pid, nat>)

  datatype State = State(
    hasConfig: bool, service: Service, executor: Executor, world: World, main: Main, control: Control)

  datatype Action =
    | StartIntent
    | RestartIntent
    | StopIntent
    | SubmitIntent
    | DestroyService
    | DestroyStep
    | TakeTask
    | FireTimer(id: TimerId)
    | ControlStep
    | SpawnChild(pid: Pid)
    | SpawnFails
    | ChildExits(pid: Pid)
    | WaiterPosts(pid: Pid, generation: nat)
    | NetworkChanged
    | NetworkSubmits

  ghost predicate Init(s: State) {
    && s.service == Service(None, 0, false, false, None, 0)
    && s.executor.queue == [] && s.executor.timers == map[]
    && s.world == World(map[], {}, 0, map[])
    && s.main == Waiting && s.control == Idle
  }

  /** The condition `desiredRunning && !destroyed` that guards every entry point. */
  predicate Wanted(s: State) {
    s.service.desiredRunning && !s.service.destroyed
  }

  predicate IsAlive(s: State, p: Pid) {
    p in s.world.children && s.world.children[p].alive
  }

  predicate Enabled(s: State, a: Action) {
    match a
    case StartIntent => s.main == Waiting
    case RestartIntent => s.main == Waiting
    case StopIntent => s.main == Waiting
    case SubmitIntent => s.main.Submitting?
    case DestroyService => s.main == Waiting
    case DestroyStep => s.service.destroyed && s.main != Gone
    case TakeTask => s.control == Idle && s.executor.queue != []
    case FireTimer(id) => s.control == Idle && id in s.executor.timers
    case ControlStep => s.control != Idle && s.control != Spawning
    case SpawnChild(p) => s.control == Spawning && p !in s.world.children
    case SpawnFails => s.control == Spawning
    case ChildExits(p) => IsAlive(s, p)
    case WaiterPosts(p, g) => (p, g) in s.world.waiters && !IsAlive(s, p)
    case NetworkChanged => true
    case NetworkSubmits => s.world.networkCalls > 0
  }

  /** submitControl: dropped once destroyed, also because the executor then rejects it. */
  function Submitted(s: State, t: Task): State {
    if s.service.destroyed then s
    else s.(executor := s.executor.(queue := s.executor.queue + [t]))
  }

  function CancelPendingRestart(s: State): State {
    match s.service.pendingRestart
    case None => s
    case Some(id) =>
      s.(executor := s.executor.(timers := s.executor.timers - {id}),
         service := s.service.(pendingRestart := None))
  }

  /** Schedules a timer; a shut-down executor rejects it. */
  function Scheduled(s: State, t: Timer): State {
    if s.main == Gone then s
    else
      s.(executor := s.executor.(timers := s.executor.timers[s.executor.nextTimer := t],
                                 nextTimer := s.executor.nextTimer + 1))
  }

  /** Cancels the pending restart and arms a new one. */
  function ArmRestart(s: State, t: Timer): State {
    var cancelled := CancelPendingRestart(s);
    if s.main == Gone then cancelled
    else
      Scheduled(cancelled, t).(service := s.service.(pendingRestart := Some(s.executor.nextTimer)))
  }

  /** The lock region of terminateWireproxy. */
  function Released(s: State): State {
    s.(service := s.service.(process := None, generation := s.service.generation + 1))
  }

  /** destroy() on a child. */
  function Killed(s: State, p: Pid): State {
    if p in s.world.children then
      var child := s.world.children[p].(destroyRequested := true);
      s.(world := s.world.(children := s.world.children[p := child]))
    else s
  }

  /** The lock region of startProxy. */
  function Installed(s: State, p: Pid): State {
    var g := s.service.generation + 1;
    s.(service := s.service.(process := Some(p), generation := g),
       world := s.world.(installedAs := s.world.installedAs[p := g]),
       control := Launch(p, g))
  }

  predicate IsCurrent(s: State, p: Pid, g: nat) {
    s.service.process == Some(p) && s.service.generation == g
  }

  function EntryOf(t: Task): Control {
    match t
    case EnsureTask => EnsureEntry
    case RestartTask => RestartEntry
    case StopTask => StopEntry
    case ArmNetworkTask => ArmEntry
    case ExitTask(p, g) => ExitEntry(p, g)
  }

  function TimerEntry(t: Timer): Control {
    match t
    case CrashRestart(_) => EnsureEntry
    case NetworkRestart(_) => RestartEntry
    case Stable(p, g) => StableEntry(p, g)
  }

  /** ensureProxyRunning. */
  function EnsureNext(s: State): State {
    if s.control.EnsureEntry? then s.(control := if Wanted(s) then EnsureAlive else Idle)
    else
      var process := s.service.process;
      s.(control := if process.Some? && IsAlive(s, process.value) then Idle else StartEntry)
  }

  /** restartProxy up to terminateWireproxy. */
  function RestartNext(s: State): State {
    if Wanted(s) then
      var cancelled := CancelPendingRestart(s);
      cancelled.(service := cancelled.service.(failures := 0), control := Terminate(true))
    else s.(control := Idle)
  }

  /** terminateWireproxy: release the field under the lock, then destroy the child. */
  function TerminateNext(s: State, thenStart: bool): State {
    var next := if thenStart then StartEntry else Idle;
    if s.control.Destroy? then Killed(s, s.control.pid).(control := next)
    else
      var process := s.service.process;
      Released(s).(control := if process.Some? then Destroy(process.value, thenStart) else next)
  }

  /** The last step of startProxy: start the waiter thread and the stability timer. */
  function LaunchNext(s: State, p: Pid, g: nat): State {
    if s.main == Gone then s.(control := Idle)
    else Scheduled(s, Stable(p, g)).(world := s.world.(waiters := s.world.waiters + {(p, g)}), control := Idle)
  }

  /** scheduleCrashRestart. */
  function CrashNext(s: State): State {
    if Wanted(s) then
      var armed := ArmRestart(s, CrashRestart(RestartPolicy.DelayMs(s.service.failures)));
      armed.(service := armed.service.(failures := s.service.failures + 1), control := Idle)
    else s.(control := Idle)
  }

  /** The lock region of handleProcessExit. */
  function ExitNext(s: State, p: Pid, g: nat): State {
    if IsCurrent(s, p, g) then s.(service := s.service.(process := None), control := ExitCleared)
    else s.(control := Idle)
  }

  /** markProcessStable. */
  function StableNext(s: State, p: Pid, g: nat): State {
    if IsCurrent(s, p, g) && IsAlive(s, p) then s.(service := s.service.(failures := 0), control := Idle)
    else s.(control := Idle)
  }

  /** One step of whatever the control thread is running. */
  function ControlNext(s: State): State {
    match s.control
    case Idle => s
    case StopEntry => CancelPendingRestart(s).(control := Terminate(false))
    case EnsureEntry => EnsureNext(s)
    case EnsureAlive => EnsureNext(s)
    case RestartEntry => RestartNext(s)
    case ArmEntry => ArmRestart(s, NetworkRestart(NETWORK_RESTART_DELAY_MS)).(control := Idle)
    case Terminate(thenStart) => TerminateNext(s, thenStart)
    case Destroy(_, thenStart) => TerminateNext(s, thenStart)
    case StartEntry => s.(control := if Wanted(s) && s.hasConfig then Spawning else Idle)
    case Spawning => s
    case Recheck(p) => s.(control := if Wanted(s) then Install(p) else Discard(p))
    case Discard(p) => Killed(s, p).(control := Idle)
    case Install(p) => Installed(s, p)
    case Launch(p, g) => LaunchNext(s, p, g)
    case CrashEntry => CrashNext(s)
    case ExitEntry(p, g) => ExitNext(s, p, g)
    case ExitCleared => s.(control := if Wanted(s) then CrashEntry else Idle)
    case StableEntry(p, g) => StableNext(s, p, g)
  }

  /** onDestroy, one access at a time. */
  function DestroyNext(s: State): State {
    match s.main
    case DestroyCancel => CancelPendingRestart(s).(main := DestroyTerminate)
    case DestroyTerminate =>
      var process := s.service.process;
      Released(s).(main := if process.Some? then DestroyKill(process.value) else DestroyShutdown)
    case DestroyKill(p) => Killed(s, p).(main := DestroyShutdown)
    case DestroyShutdown =>
      s.(executor := s.executor.(queue := [], timers := map[]), world := s.world.(waiters := {}), main := Gone)
    case _ => s
  }

  function Step(s: State, a: Action): State
    requires Enabled(s, a)
  {
    match a
    case StartIntent =>
      s.(service := s.service.(desiredRunning := true), main := Submitting(EnsureTask))
    case RestartIntent =>
      s.(service := s.service.(desiredRunning := true), main := Submitting(RestartTask))
    case StopIntent =>
      s.(service := s.service.(desiredRunning := false), main := Submitting(StopTask))
    case SubmitIntent => Submitted(s, s.main.task).(main := Waiting)
    case DestroyService => s.(service := s.service.(destroyed := true), main := DestroyCancel)
    case DestroyStep => DestroyNext(s)
    case TakeTask =>
      var queue := s.executor.queue;
      s.(executor := s.executor.(queue := queue[1..]), control := EntryOf(queue[0]))
    case FireTimer(id) =>
      var timers := s.executor.timers;
      s.(executor := s.executor.(timers := timers - {id}), control := TimerEntry(timers[id]))
    case ControlStep => ControlNext(s)
    case SpawnChild(p) =>
      s.(world := s.world.(children := s.world.children[p := Child(true, false)]), control := Recheck(p))
    case SpawnFails => s.(control := CrashEntry)
    case ChildExits(p) =>
      var child := s.world.children[p].(alive := false);
      s.(world := s.world.(children := s.world.children[p := child]))
    case WaiterPosts(p, g) =>
      Submitted(s.(world := s.world.(waiters := s.world.waiters - {(p, g)})), ExitTask(p, g))
    case NetworkChanged =>
      if Wanted(s) then s.(world := s.world.(networkCalls := s.world.networkCalls + 1)) else s
    case NetworkSubmits =>
      Submitted(s.(world := s.world.(networkCalls := s.world.networkCalls - 1)), ArmNetworkTask)
  }

  /** The actions can be taken one after the other from s. */
  predicate CanRun(s: State, actions: seq<Action>)
    decreases |actions|
  {
    actions == [] || (Enabled(s, actions[0]) && CanRun(Step(s, actions[0]), actions[1..]))
  }

  /** The state at the end of a run. Every prefix of a run is a run, so this reaches every state of it. */
  function After(s: State, actions: seq<Action>): State
    requires CanRun(s, actions)
    decreases |actions|
  {
    if actions == [] then s else After(Step(s, actions[0]), actions[1..])
  }
}
