/** What a crash costs: no child is started without a reason, and every crash waits out a back-off. */
module SupervisorCrashes {
  import opened Base
  import opened Supervisor
  import opened SupervisorInvariant
  import opened SupervisorTheorems
  import RestartPolicy

  // Every attempt to start a child was triggered by a start task or a restart timer.

  predicate IsAttempt(a: Action) {
    a.SpawnChild? || a.SpawnFails?
  }

  /** A start task is taken, or a restart timer fires. */
  predicate IsTrigger(s: State, a: Action)
    requires Enabled(s, a)
  {
    (a.TakeTask? && IsStart(s.executor.queue[0])) || (a.FireTimer? && IsRestartTimer(s.executor.timers[a.id]))
  }

  function Attempts(actions: seq<Action>): nat {
    if actions == [] then 0 else (if IsAttempt(actions[0]) then 1 else 0) + Attempts(actions[1..])
  }

  function Triggers(s: State, actions: seq<Action>): nat
    requires CanRun(s, actions)
    decreases |actions|
  {
    if actions == [] then 0
    else (if IsTrigger(s, actions[0]) then 1 else 0) + Triggers(Step(s, actions[0]), actions[1..])
  }

  /** Attempts the control thread may still make for what it is running. */
  function Credit(c: Control): nat {
    match c
    case EnsureEntry => 1
    case EnsureAlive => 1
    case RestartEntry => 1
    case Terminate(thenStart) => if thenStart then 1 else 0
    case Destroy(_, thenStart) => if thenStart then 1 else 0
    case StartEntry => 1
    case Spawning => 1
    case _ => 0
  }

  lemma CreditStep(s: State, a: Action)
    requires Enabled(s, a)
    ensures Credit(Step(s, a).control) + (if IsAttempt(a) then 1 else 0)
            <= Credit(s.control) + if IsTrigger(s, a) then 1 else 0
  {
  }

  lemma {:induction false} CreditRun(s: State, actions: seq<Action>)
    requires CanRun(s, actions)
    ensures Credit(After(s, actions).control) + Attempts(actions) <= Credit(s.control) + Triggers(s, actions)
    decreases |actions|
  {
    if actions != [] {
      CreditStep(s, actions[0]);
      CreditRun(Step(s, actions[0]), actions[1..]);
    }
  }

  /**
   In every run there are at most as many attempts to start a child, successful or not, as
   start tasks taken and restart timers fired: neither an exit notice nor a failed attempt
   leads to another attempt by itself.
   */
  lemma AttemptsAreTriggered(init: State, actions: seq<Action>)
    requires Init(init) && CanRun(init, actions)
    ensures Attempts(actions) <= Triggers(init, actions)
  {
    CreditRun(init, actions);
  }

  // Every crash ends in a back-off.

  /** The notice of the current child, or a failed attempt, is being handled after f failures. */
  predicate Crashing(s: State, f: nat) {
    && s.service.failures == f
    && (s.control.ExitCleared? || s.control.CrashEntry?
        || (s.control.ExitEntry? && IsCurrent(s, s.control.pid, s.control.generation)))
  }

  const DELAYS := [1000, 2000, 4000, 8000, 16000]

  /** The crash is dealt with: one more failure, and the pending restart waits for the delay of f failures. */
  ghost predicate BackedOff(s: State, f: nat) {
    && s.control == Idle && s.service.failures == f + 1
    && s.service.pendingRestart.Some? && s.service.pendingRestart.value in s.executor.timers
    && s.executor.timers[s.service.pendingRestart.value] == CrashRestart(if f < 5 then DELAYS[f] else 30000)
  }

  lemma DelayOf(f: nat)
    ensures RestartPolicy.DelayMs(f) == if f < 5 then DELAYS[f] else 30000
  {
    RestartPolicy.DelayTable();
  }

  /** Everything but what makes the proxy unwanted. */
  predicate KeepsWish(a: Action) {
    !a.StopIntent? && !a.DestroyService?
  }

  lemma CrashEntryBacksOff(s: State)
    requires Inv(s) && Wanted(s) && s.control == CrashEntry
    ensures BackedOff(ControlNext(s), s.service.failures)
  {
    var f := s.service.failures;
    DelayOf(f);
    var id := s.executor.nextTimer;
    assert s.main != Gone;
    assert id in ControlNext(s).executor.timers && ControlNext(s).executor.timers[id] == CrashRestart(RestartPolicy.DelayMs(f));
  }

  lemma WishKept(s: State, a: Action)
    requires Inv(s) && Wanted(s) && Enabled(s, a) && KeepsWish(a)
    ensures Wanted(Step(s, a))
  {
  }

  lemma OthersLeaveCrash(s: State, a: Action, f: nat)
    requires Inv(s) && Wanted(s) && Crashing(s, f) && Enabled(s, a) && KeepsWish(a) && a != ControlStep
    ensures Crashing(Step(s, a), f)
  {
  }

  lemma CrashStep(s: State, a: Action, f: nat)
    requires Inv(s) && Wanted(s) && Crashing(s, f) && Enabled(s, a) && KeepsWish(a)
    ensures Crashing(Step(s, a), f) || (a == ControlStep && BackedOff(Step(s, a), f))
  {
    if a != ControlStep {
      OthersLeaveCrash(s, a, f);
    } else if s.control.CrashEntry? {
      CrashEntryBacksOff(s);
    }
  }

  /**
   From the moment the exit notice of the current child is taken up, or an attempt has
   failed, while the proxy stays wanted: in every run, whatever comes in between, the
   handling either is still going on or has come to the state in which exactly one failure
   more is counted and a crash restart is pending after the delay for the failures before.
   */
  lemma {:induction false} CrashIsBackedOff(s: State, actions: seq<Action>, f: nat) returns (k: nat)
    requires Inv(s) && Wanted(s) && Crashing(s, f) && CanRun(s, actions)
    requires forall a <- actions :: KeepsWish(a)
    requires !Crashing(After(s, actions), f)
    ensures k < |actions| && CanRun(s, actions[..k + 1])
    ensures BackedOff(After(s, actions[..k + 1]), f)
    decreases |actions|
  {
    var a := actions[0];
    StepKeepsInv(s, a);
    WishKept(s, a);
    CrashStep(s, a, f);
    if Crashing(Step(s, a), f) {
      var k1 := CrashIsBackedOff(Step(s, a), actions[1..], f);
      k := k1 + 1;
      assert actions[..k + 1][1..] == actions[1..][..k1 + 1];
    } else {
      k := 0;
      assert actions[..1][1..] == [];
    }
  }

  function CrashStepsLeft(c: Control): nat {
    if c.ExitEntry? then 3 else if c.ExitCleared? then 2 else 1
  }

  /** Left to itself the control thread gets there in at most three steps. */
  lemma CrashHandling(s: State, f: nat) returns (steps: seq<Action>)
    requires Inv(s) && Wanted(s) && Crashing(s, f)
    ensures |steps| <= CrashStepsLeft(s.control) <= 3 && (forall a <- steps :: a == ControlStep)
    ensures CanRun(s, steps) && BackedOff(After(s, steps), f)
    decreases CrashStepsLeft(s.control)
  {
    var s1 := Step(s, ControlStep);
    StepKeepsInv(s, ControlStep);
    CrashStep(s, ControlStep, f);
    if Crashing(s1, f) {
      var rest := CrashHandling(s1, f);
      steps := [ControlStep] + rest;
      assert steps[1..] == rest;
    } else {
      steps := [ControlStep];
      assert steps[1..] == [];
    }
  }
}
