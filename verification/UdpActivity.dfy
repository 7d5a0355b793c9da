/**
 When a session of the UDP tunnel was last active, told from the run alone, and what that
 means for the sessions the cleaner drops and the handlers that leave.
 */
module UdpActivity {
  import opened Base
  import opened UdpSessions

  // Positions in a run.

  /** The state before action k. */
  function StateAt(s: State, actions: seq<Action>, k: nat): (r: State)
    requires CanRun(s, actions) && k <= |actions|
    ensures k < |actions| ==> Enabled(r, actions[k])
    ensures k == |actions| ==> r == After(s, actions)
    decreases k
  {
    if k == 0 then s else StateAt(Step(s, actions[0]), actions[1..], k - 1)
  }

  lemma {:induction false} NextState(s: State, actions: seq<Action>, k: nat)
    requires CanRun(s, actions) && k < |actions|
    ensures StateAt(s, actions, k + 1) == Step(StateAt(s, actions, k), actions[k])
    decreases k
  {
    if k > 0 {
      NextState(Step(s, actions[0]), actions[1..], k - 1);
    } else {
      assert StateAt(Step(s, actions[0]), actions[1..], 0) == Step(s, actions[0]);
    }
  }

  lemma {:induction false} InvAt(s: State, actions: seq<Action>, k: nat)
    requires Inv(s) && CanRun(s, actions) && k <= |actions|
    ensures Inv(StateAt(s, actions, k))
    decreases k
  {
    if k > 0 {
      StepKeepsInv(s, actions[0]);
      InvAt(Step(s, actions[0]), actions[1..], k - 1);
    }
  }

  /**
   Action a is traffic on session i: a packet from its source, the reader sending on it,
   or data from the remote side.
   */
  predicate IsActivity(s: State, a: Action, i: Sid)
    requires Enabled(s, a)
  {
    match a
    case Packet(key, dialled) => if key in s.sessions then s.sessions[key] == i else dialled && i == |s.all|
    case Forward => s.reader.sid == i
    case Handler(j, outcome) => j == i && s.all[i].stage == Reading && outcome.Data?
    case _ => false
  }

  predicate ActiveAt(s: State, actions: seq<Action>, k: nat, i: Sid)
    requires CanRun(s, actions)
  {
    k < |actions| && IsActivity(StateAt(s, actions, k), actions[k], i)
  }

  lemma ActivityStamps(s: State, a: Action, i: Sid)
    requires Inv(s) && Enabled(s, a) && IsActivity(s, a, i)
    ensures i < |Step(s, a).all| && Step(s, a).all[i].lastActive == s.now
  {
  }

  /** A stamp is only ever changed by activity. */
  lemma OnlyActivityStamps(s: State, a: Action, i: Sid)
    requires Inv(s) && Enabled(s, a) && i < |Step(s, a).all| && !IsActivity(s, a, i)
    ensures i < |s.all| && Step(s, a).all[i].lastActive == s.all[i].lastActive
  {
  }

  lemma StampNeverBack(s: State, a: Action, i: Sid)
    requires Inv(s) && Enabled(s, a) && i < |s.all|
    ensures i < |Step(s, a).all| && s.all[i].lastActive <= Step(s, a).all[i].lastActive
  {
    SessionProgress(s, a, i);
    if IsActivity(s, a, i) {
      ActivityStamps(s, a, i);
    } else {
      OnlyActivityStamps(s, a, i);
    }
  }

  lemma {:induction false} StampsKept(s: State, actions: seq<Action>, m: nat, n: nat, i: Sid, t: int)
    requires Inv(s) && CanRun(s, actions) && m <= n <= |actions|
    requires i < |StateAt(s, actions, m).all| && t <= StateAt(s, actions, m).all[i].lastActive
    ensures i < |StateAt(s, actions, n).all| && t <= StateAt(s, actions, n).all[i].lastActive
    decreases n
  {
    if m < n {
      StampsKept(s, actions, m, n - 1, i, t);
      InvAt(s, actions, n - 1);
      NextState(s, actions, n - 1);
      StampNeverBack(StateAt(s, actions, n - 1), actions[n - 1], i);
    }
  }

  lemma StampedNext(s: State, actions: seq<Action>, k: nat, i: Sid)
    requires Inv(s) && CanRun(s, actions) && k < |actions| && ActiveAt(s, actions, k, i)
    ensures i < |StateAt(s, actions, k + 1).all|
    ensures StateAt(s, actions, k + 1).all[i].lastActive == StateAt(s, actions, k).now
  {
    InvAt(s, actions, k);
    NextState(s, actions, k);
    ActivityStamps(StateAt(s, actions, k), actions[k], i);
  }

  /** At any later position the stamp of a session is no earlier than its activity. */
  lemma ActivityIsRemembered(s: State, actions: seq<Action>, k: nat, n: nat, i: Sid)
    requires Inv(s) && CanRun(s, actions) && k < n <= |actions| && ActiveAt(s, actions, k, i)
    ensures i < |StateAt(s, actions, n).all|
    ensures StateAt(s, actions, k).now <= StateAt(s, actions, n).all[i].lastActive
  {
    StampedNext(s, actions, k, i);
    StampsKept(s, actions, k + 1, n, i, StateAt(s, actions, k).now);
  }

  /** A stamp is the time of the action that just happened, or was there before. */
  lemma StampStep(s: State, a: Action, i: Sid, stamp: int)
    requires Inv(s) && Enabled(s, a) && i < |Step(s, a).all| && stamp == Step(s, a).all[i].lastActive
    ensures if IsActivity(s, a, i) then stamp == s.now else i < |s.all| && stamp == s.all[i].lastActive
  {
    if IsActivity(s, a, i) {
      ActivityStamps(s, a, i);
    } else {
      OnlyActivityStamps(s, a, i);
    }
  }

  /** And it is the time of some activity. */
  lemma {:induction false} StampIsActivity(s: State, actions: seq<Action>, n: nat, i: Sid) returns (k: nat)
    requires Inv(s) && CanRun(s, actions) && n <= |actions|
    requires |s.all| <= i < |StateAt(s, actions, n).all|
    ensures k < n && ActiveAt(s, actions, k, i)
    ensures StateAt(s, actions, k).now == StateAt(s, actions, n).all[i].lastActive
    decreases n
  {
    assert n > 0;
    InvAt(s, actions, n - 1);
    NextState(s, actions, n - 1);
    StampStep(StateAt(s, actions, n - 1), actions[n - 1], i, StateAt(s, actions, n).all[i].lastActive);
    if ActiveAt(s, actions, n - 1, i) {
      k := n - 1;
    } else {
      k := StampIsActivity(s, actions, n - 1, i);
    }
  }

  // The cleaner.

  /** A sweep drops a session only with a clock reading at least the timeout after all its activity. */
  lemma SweepsOnlyIdle(init: State, actions: seq<Action>, n: nat, k: nat, i: Sid)
    requires Init(init) && CanRun(init, actions) && n < |actions| && actions[n] == Sweep
    requires Mapped(StateAt(init, actions, n), i) && !Mapped(StateAt(init, actions, n + 1), i)
    requires k < n && ActiveAt(init, actions, k, i)
    ensures StateAt(init, actions, n).sweepAt.value - StateAt(init, actions, k).now >= init.timeout > 0
  {
    InitInv(init);
    InvAt(init, actions, n);
    NextState(init, actions, n);
    OnlyOwnHandlerOrSweepEvicts(StateAt(init, actions, n), Sweep, i);
    ActivityIsRemembered(init, actions, k, n, i);
    SettingsAt(init, actions, n);
  }

  lemma {:induction false} SettingsAt(s: State, actions: seq<Action>, n: nat)
    requires CanRun(s, actions) && n <= |actions|
    ensures StateAt(s, actions, n).timeout == s.timeout && StateAt(s, actions, n).slack == s.slack
    decreases n
  {
    if n > 0 {
      SettingsAt(Step(s, actions[0]), actions[1..], n - 1);
    }
  }

  /** With the cleaner on, a mapped session has been active within the timeout, a tick and the lateness of a sweep. */
  lemma MappedWasActive(init: State, actions: seq<Action>, i: Sid) returns (k: nat)
    requires Init(init) && CanRun(init, actions) && init.timeout > 0 && Mapped(After(init, actions), i)
    ensures ActiveAt(init, actions, k, i)
    ensures After(init, actions).now - StateAt(init, actions, k).now < init.timeout + 10000 + init.slack
  {
    InitInv(init);
    IdleBound(init, actions, i);
    k := StampIsActivity(init, actions, |actions|, i);
  }

  // Handlers.

  predicate Working(stage: Stage) {
    stage == Looping || stage == Reading || stage == TimedOut
  }

  /** The read of session i ends in an error, or its data cannot be delivered. */
  predicate IsFailure(s: State, a: Action, i: Sid) {
    a.Handler? && a.sid == i && i < |s.all| && s.all[i].stage == Reading
    && (a.outcome == ReadError || a.outcome == Data(false))
  }

  /** A working handler leaves exactly when it finds its channel closed, or on a failure. */
  lemma HandlerLeavesIff(s: State, a: Action, i: Sid)
    requires Enabled(s, a) && i < |s.all| && Working(s.all[i].stage)
    ensures i < |Step(s, a).all|
    ensures !Working(Step(s, a).all[i].stage) <==>
              IsFailure(s, a, i)
              || (a.Handler? && a.sid == i && s.all[i].stage != Reading && s.all[i].chanClosed)
  {
  }

  lemma NewSessionWorks(s: State, a: Action, i: Sid)
    requires Inv(s) && Enabled(s, a) && |s.all| <= i < |Step(s, a).all|
    ensures Working(Step(s, a).all[i].stage) && Mapped(Step(s, a), i)
  {
  }

  lemma LeftOpen(s: State, a: Action, i: Sid)
    requires Inv(s) && Enabled(s, a) && i < |Step(s, a).all|
    requires !Working(Step(s, a).all[i].stage) && !Step(s, a).all[i].chanClosed
    ensures i < |s.all| && !s.all[i].chanClosed && (!Working(s.all[i].stage) || IsFailure(s, a, i))
  {
    if |s.all| <= i {
      NewSessionWorks(s, a, i);
    } else {
      SessionProgress(s, a, i);
      if Working(s.all[i].stage) {
        HandlerLeavesIff(s, a, i);
      }
    }
  }

  /** While its channel is open, a handler has stopped working only because of a failure. */
  lemma {:induction false} LeavingHasCause(s: State, actions: seq<Action>, n: nat, i: Sid) returns (k: nat)
    requires Inv(s) && CanRun(s, actions) && n <= |actions|
    requires |s.all| <= i < |StateAt(s, actions, n).all|
    requires !Working(StateAt(s, actions, n).all[i].stage) && !StateAt(s, actions, n).all[i].chanClosed
    ensures k < n && IsFailure(StateAt(s, actions, k), actions[k], i)
    decreases n
  {
    InvAt(s, actions, n - 1);
    NextState(s, actions, n - 1);
    var before := StateAt(s, actions, n - 1);
    LeftOpen(before, actions[n - 1], i);
    if Working(before.all[i].stage) {
      k := n - 1;
    } else {
      k := LeavingHasCause(s, actions, n - 1, i);
    }
  }

  /** The step that took a session out of the map. */
  lemma {:induction false} UnmappingStep(s: State, actions: seq<Action>, n: nat, i: Sid) returns (k: nat)
    requires Inv(s) && CanRun(s, actions) && n <= |actions|
    requires |s.all| <= i < |StateAt(s, actions, n).all| && !Mapped(StateAt(s, actions, n), i)
    ensures k < n && Mapped(StateAt(s, actions, k), i) && !Mapped(StateAt(s, actions, k + 1), i)
    decreases n
  {
    InvAt(s, actions, n - 1);
    NextState(s, actions, n - 1);
    var before := StateAt(s, actions, n - 1);
    if |before.all| <= i {
      NewSessionWorks(before, actions[n - 1], i);
    }
    if Mapped(before, i) {
      k := n - 1;
    } else {
      k := UnmappingStep(s, actions, n - 1, i);
    }
  }

  /** A sweep at position k dropped session i, which had been idle for the timeout at its clock reading. */
  ghost predicate DroppedIdle(init: State, actions: seq<Action>, k: nat, i: Sid)
    requires CanRun(init, actions) && k < |actions|
  {
    && actions[k] == Sweep && init.timeout > 0
    && forall j: nat | j < k && ActiveAt(init, actions, j, i) ::
         StateAt(init, actions, k).sweepAt.value - StateAt(init, actions, j).now >= init.timeout
  }

  /**
   In every run, a session that is no longer in the map was dropped by a sweep that found
   it idle for the timeout, or its handler met a read error or could not deliver; a read
   that merely timed out never costs a session its place.
   */
  lemma UnmappedForCause(init: State, actions: seq<Action>, i: Sid) returns (k: nat)
    requires Init(init) && CanRun(init, actions)
    requires i < |After(init, actions).all| && !Mapped(After(init, actions), i)
    ensures k < |actions|
    ensures DroppedIdle(init, actions, k, i) || IsFailure(StateAt(init, actions, k), actions[k], i)
  {
    InitInv(init);
    k := UnmappingStep(init, actions, |actions|, i);
    InvAt(init, actions, k);
    NextState(init, actions, k);
    OnlyOwnHandlerOrSweepEvicts(StateAt(init, actions, k), actions[k], i);
    if actions[k] == Sweep {
      forall j: nat | j < k && ActiveAt(init, actions, j, i)
        ensures StateAt(init, actions, k).sweepAt.value - StateAt(init, actions, j).now >= init.timeout
      {
        SweepsOnlyIdle(init, actions, k, j, i);
      }
      SettingsAt(init, actions, k);
    } else {
      k := LeavingHasCause(init, actions, k, i);
    }
  }

  // The reader.

  /** A packet whose source is mapped, or for which Dial succeeds, is sent on the session mapped under that source. */
  lemma PacketFindsItsSession(s: State, key: string, dialled: bool)
    requires Inv(s) && s.reader == Listening
    ensures var s' := Step(s, Packet(key, dialled));
            if key in s.sessions || dialled then
              s'.reader.Sending? && Mapped(s', s'.reader.sid) && s'.all[s'.reader.sid].key == key
            else s' == s
  {
  }
}
