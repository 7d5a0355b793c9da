/**
 The session table of udp_proxy.go as a state machine.

 One reader, one cleaner and one handler per session share a map and the session
 records. An action is one region under the mutex, or one access outside it. A session
 is named by its position in `all`, the sequence of every session ever created.
 */
module UdpSessions {
  import opened Base

  const TICK_MS := 10000

  type Sid = nat

  /** Where the handler goroutine of a session stands. */
  datatype Stage = Looping | Reading | TimedOut | Leaving | Closing | Finished

  /** `chanClosed` and `connOpen` tell the state of closeChan and of remoteConn. */
  datatype Session = Session(key: string, lastActive: int, chanClosed: bool, connOpen: bool, stage: Stage)

  /** The reader is waiting for a packet, or holds the session it is about to write to. */
  datatype Reader = Listening | Sending(sid: Sid)

  /** How a blocking read from the remote side ended. */
  datatype Outcome = Data(delivered: bool) | Timeout | ReadError

  /**
   `sweepAt` is the clock reading the cleaner has taken before it asks for the mutex.
   `slack` bounds how long after a tick is due its sweep may finish. `swept` is history:
   the clock reading the latest finished sweep used.
   */
  datatype State = State(
    timeout: nat,
    slack: nat,
    now: int,
    nextTick: int,
    sweepAt: Option<int>,
    sessions: map<string, Sid>,
    all: seq<Session>,
    reader: Reader,
    dials: nat,
    closes: nat,
    swept: int)

  datatype Action =
    | Packet(key: string, dialled: bool)
    | Forward
    | Tick
    | Sweep
    | Handler(sid: Sid, outcome: Outcome)
    | Advance(ms: nat)

  ghost predicate Init(s: State) {
    && s.now == 0 && s.nextTick == TICK_MS && s.sweepAt == None && s.swept == 0
    && s.sessions == map[] && s.all == [] && s.reader == Listening && s.dials == 0 && s.closes == 0
  }

  /** The latest time at which the sweep that is due may still be unfinished. */
  function Deadline(s: State): int {
    (if s.sweepAt.Some? then s.nextTick - TICK_MS else s.nextTick) + s.slack
  }

  predicate Enabled(s: State, a: Action) {
    match a
    case Packet(_, _) => s.reader == Listening
    case Forward => s.reader.Sending? && s.reader.sid < |s.all|
    case Tick => s.timeout > 0 && s.sweepAt == None && s.now >= s.nextTick
    case Sweep => s.sweepAt.Some?
    case Handler(i, _) => i < |s.all| && s.all[i].stage != Finished
    case Advance(ms) => s.timeout > 0 ==> s.now + ms <= Deadline(s)
  }

  predicate Expired(session: Session, at: int, timeout: nat) {
    at - session.lastActive >= timeout
  }

  function Touched(s: State, i: Sid): State
    requires i < |s.all|
  {
    s.(all := s.all[i := s.all[i].(lastActive := s.now)])
  }

  function AtStage(s: State, i: Sid, stage: Stage): State
    requires i < |s.all|
  {
    s.(all := s.all[i := s.all[i].(stage := stage)])
  }

  /** closeSessionChan. */
  function ChanClosed(session: Session): Session {
    if session.chanClosed then session else session.(chanClosed := true)
  }

  /** getOrCreateSession, called by the reader. */
  function Received(s: State, key: string, dialled: bool): State {
    if key in s.sessions then
      if s.sessions[key] < |s.all| then Touched(s, s.sessions[key]).(reader := Sending(s.sessions[key])) else s
    else if !dialled then s
    else
      s.(all := s.all + [Session(key, s.now, false, true, Looping)],
         sessions := s.sessions[key := |s.all|],
         reader := Sending(|s.all|),
         dials := s.dials + 1)
  }

  /** removeSession, called by handler i for its own key. */
  function Removed(s: State, i: Sid): State
    requires i < |s.all|
  {
    var key := s.all[i].key;
    if key in s.sessions && s.sessions[key] == i then
      s.(sessions := s.sessions - {key}, all := s.all[i := ChanClosed(s.all[i])])
    else s
  }

  /** The sessions the cleaner drops when it uses the clock reading `at`. */
  predicate Drops(s: State, i: Sid, at: int) {
    && i < |s.all|
    && s.all[i].key in s.sessions && s.sessions[s.all[i].key] == i
    && Expired(s.all[i], at, s.timeout)
  }

  predicate IdleKey(s: State, key: string, at: int) {
    key in s.sessions && s.sessions[key] < |s.all| && Expired(s.all[s.sessions[key]], at, s.timeout)
  }

  function SweptRecords(s: State, at: int): (all: seq<Session>)
    ensures |all| == |s.all|
    ensures forall i | 0 <= i < |all| :: all[i] == if Drops(s, i, at) then ChanClosed(s.all[i]) else s.all[i]
  {
    seq(|s.all|, i requires 0 <= i < |s.all| => if Drops(s, i, at) then ChanClosed(s.all[i]) else s.all[i])
  }

  function SweptTable(s: State, at: int): map<string, Sid> {
    map key | key in s.sessions && !IdleKey(s, key, at) :: s.sessions[key]
  }

  /** The whole cleaner loop under the mutex. */
  function Swept(s: State, at: int): State {
    s.(all := SweptRecords(s, at), sessions := SweptTable(s, at), sweepAt := None, swept := at)
  }

  /** One step of handleRemoteToLocal for session i. */
  function HandlerNext(s: State, i: Sid, outcome: Outcome): State
    requires i < |s.all|
  {
    match s.all[i].stage
    case Looping => AtStage(s, i, if s.all[i].chanClosed then Leaving else Reading)
    case Reading =>
      (match outcome
       case Data(delivered) => AtStage(Touched(s, i), i, if delivered then Looping else Leaving)
       case Timeout => AtStage(s, i, TimedOut)
       case ReadError => AtStage(s, i, Leaving))
    case TimedOut => AtStage(s, i, if s.all[i].chanClosed then Leaving else Looping)
    case Leaving => AtStage(Removed(s, i), i, Closing)
    case Closing =>
      s.(all := s.all[i := s.all[i].(connOpen := false, stage := Finished)], closes := s.closes + 1)
    case Finished => s
  }

  function Step(s: State, a: Action): State
    requires Enabled(s, a)
  {
    match a
    case Packet(key, dialled) => Received(s, key, dialled)
    case Forward => Touched(s, s.reader.sid).(reader := Listening)
    case Tick => s.(sweepAt := Some(s.now), nextTick := s.nextTick + TICK_MS)
    case Sweep => Swept(s, s.sweepAt.value)
    case Handler(i, outcome) => HandlerNext(s, i, outcome)
    case Advance(ms) => s.(now := s.now + ms)
  }

  predicate CanRun(s: State, actions: seq<Action>)
    decreases |actions|
  {
    actions == [] || (Enabled(s, actions[0]) && CanRun(Step(s, actions[0]), actions[1..]))
  }

  function After(s: State, actions: seq<Action>): State
    requires CanRun(s, actions)
    decreases |actions|
  {
    if actions == [] then s else After(Step(s, actions[0]), actions[1..])
  }

  // The invariant.

  predicate Mapped(s: State, i: Sid) {
    i < |s.all| && s.all[i].key in s.sessions && s.sessions[s.all[i].key] == i
  }

  /** A session is mapped, under its own key, exactly while its channel is open. */
  ghost predicate TableInv(sessions: map<string, Sid>, all: seq<Session>) {
    && (forall key <- sessions :: sessions[key] < |all| && all[sessions[key]].key == key)
    && (forall i | 0 <= i < |all| ::
          !all[i].chanClosed <==> all[i].key in sessions && sessions[all[i].key] == i)
  }

  /** The connection is closed exactly when the handler has finished, and only after the channel. */
  predicate SessionInv(session: Session) {
    && (session.connOpen <==> session.stage != Finished)
    && (session.stage == Closing || session.stage == Finished ==> session.chanClosed)
  }

  function FinishedCount(all: seq<Session>): nat {
    if all == [] then 0
    else FinishedCount(all[..|all| - 1]) + if all[|all| - 1].stage == Finished then 1 else 0
  }

  ghost predicate CountInv(s: State) {
    s.dials == |s.all| && s.closes == FinishedCount(s.all)
  }

  ghost predicate ClockInv(s: State) {
    && (forall i | 0 <= i < |s.all| :: s.all[i].lastActive <= s.now)
    && (s.sweepAt.Some? ==> s.timeout > 0 && s.nextTick - TICK_MS <= s.sweepAt.value <= s.now)
    && (s.timeout > 0 ==>
          && s.now <= Deadline(s)
          && s.swept <= s.now
          && s.swept >= s.nextTick - (if s.sweepAt.Some? then 2 * TICK_MS else TICK_MS)
          && forall i | 0 <= i < |s.all| && !s.all[i].chanClosed :: s.swept - s.all[i].lastActive < s.timeout)
  }

  ghost predicate Inv(s: State) {
    && TableInv(s.sessions, s.all)
    && (forall i | 0 <= i < |s.all| :: SessionInv(s.all[i]))
    && CountInv(s)
    && ClockInv(s)
    && (s.reader.Sending? ==> s.reader.sid < |s.all|)
  }

  lemma InitInv(s: State)
    requires Init(s)
    ensures Inv(s)
  {
  }

  /** Replacing one session changes the count by what happened to that one. */
  lemma {:induction false} CountUpdate(all: seq<Session>, i: nat, session: Session)
    requires i < |all|
    ensures FinishedCount(all[i := session]) + (if all[i].stage == Finished then 1 else 0)
            == FinishedCount(all) + (if session.stage == Finished then 1 else 0)
  {
    var n := |all| - 1;
    if i == n {
      assert all[i := session][..n] == all[..n];
    } else {
      assert all[i := session][..n] == all[..n][i := session];
      CountUpdate(all[..n], i, session);
    }
  }

  /** Two tables whose handlers stand at the same points have the same count. */
  lemma {:induction false} CountSameStages(all: seq<Session>, all': seq<Session>)
    requires |all| == |all'| && forall i | 0 <= i < |all| :: all[i].stage == all'[i].stage
    ensures FinishedCount(all) == FinishedCount(all')
  {
    if all != [] {
      CountSameStages(all[..|all| - 1], all'[..|all| - 1]);
    }
  }

  lemma CreatedTable(sessions: map<string, Sid>, all: seq<Session>, created: Session)
    requires TableInv(sessions, all) && created.key !in sessions && !created.chanClosed
    ensures TableInv(sessions[created.key := |all|], all + [created])
  {
  }

  lemma CreatedCount(all: seq<Session>, created: Session)
    requires created.stage != Finished
    ensures FinishedCount(all + [created]) == FinishedCount(all)
  {
    assert (all + [created])[..|all|] == all;
  }

  lemma CreateKeepsInv(s: State, key: string)
    requires Inv(s) && s.reader == Listening && key !in s.sessions
    ensures Inv(Received(s, key, true))
  {
    var created := Session(key, s.now, false, true, Looping);
    CreatedTable(s.sessions, s.all, created);
    CreatedCount(s.all, created);
  }

  lemma PacketKeepsInv(s: State, key: string, dialled: bool)
    requires Inv(s) && s.reader == Listening
    ensures Inv(Received(s, key, dialled))
  {
    if key in s.sessions {
      TouchKeepsInv(s, s.sessions[key]);
    } else if dialled {
      CreateKeepsInv(s, key);
    }
  }

  lemma TouchKeepsInv(s: State, i: Sid)
    requires Inv(s) && i < |s.all|
    ensures Inv(Touched(s, i))
  {
    CountSameStages(s.all, Touched(s, i).all);
  }

  lemma StageKeepsInv(s: State, i: Sid, stage: Stage)
    requires Inv(s) && i < |s.all| && s.all[i].stage != Finished && stage != Finished
    requires stage == Closing ==> s.all[i].chanClosed
    ensures Inv(AtStage(s, i, stage))
  {
    CountUpdate(s.all, i, s.all[i].(stage := stage));
  }

  lemma RemoveKeepsInv(s: State, i: Sid)
    requires Inv(s) && i < |s.all|
    ensures Inv(Removed(s, i)) && Removed(s, i).all[i].chanClosed && |Removed(s, i).all| == |s.all|
    ensures Removed(s, i).all[i].stage == s.all[i].stage
  {
    CountSameStages(s.all, Removed(s, i).all);
  }

  lemma SweepKeepsInv(s: State)
    requires Inv(s) && s.sweepAt.Some?
    ensures Inv(Swept(s, s.sweepAt.value))
  {
    CountSameStages(s.all, Swept(s, s.sweepAt.value).all);
  }

  lemma CloseKeepsInv(s: State, i: Sid)
    requires Inv(s) && i < |s.all| && s.all[i].stage == Closing
    ensures Inv(HandlerNext(s, i, Timeout))
  {
    CountUpdate(s.all, i, s.all[i].(connOpen := false, stage := Finished));
  }

  lemma HandlerKeepsInv(s: State, i: Sid, outcome: Outcome)
    requires Inv(s) && i < |s.all|
    ensures Inv(HandlerNext(s, i, outcome))
  {
    match s.all[i].stage {
      case Looping => StageKeepsInv(s, i, if s.all[i].chanClosed then Leaving else Reading);
      case Reading =>
        match outcome {
          case Data(delivered) =>
            TouchKeepsInv(s, i);
            StageKeepsInv(Touched(s, i), i, if delivered then Looping else Leaving);
          case Timeout => StageKeepsInv(s, i, TimedOut);
          case ReadError => StageKeepsInv(s, i, Leaving);
        }
      case TimedOut => StageKeepsInv(s, i, if s.all[i].chanClosed then Leaving else Looping);
      case Leaving =>
        RemoveKeepsInv(s, i);
        StageKeepsInv(Removed(s, i), i, Closing);
      case Closing => CloseKeepsInv(s, i);
      case Finished =>
    }
  }

  lemma StepKeepsInv(s: State, a: Action)
    requires Inv(s) && Enabled(s, a)
    ensures Inv(Step(s, a))
  {
    match a {
      case Packet(key, dialled) => PacketKeepsInv(s, key, dialled);
      case Forward => TouchKeepsInv(s, s.reader.sid);
      case Tick =>
      case Sweep => SweepKeepsInv(s);
      case Handler(i, outcome) => HandlerKeepsInv(s, i, outcome);
      case Advance(_) =>
    }
  }

  lemma {:induction false} RunKeepsInv(s: State, actions: seq<Action>)
    requires Inv(s) && CanRun(s, actions)
    ensures Inv(After(s, actions))
    decreases |actions|
  {
    if actions != [] {
      StepKeepsInv(s, actions[0]);
      RunKeepsInv(Step(s, actions[0]), actions[1..]);
    }
  }

  // What the table promises in every reachable state.

  lemma ReachableInv(init: State, actions: seq<Action>)
    requires Init(init) && CanRun(init, actions)
    ensures Inv(After(init, actions))
  {
    InitInv(init);
    RunKeepsInv(init, actions);
  }

  /**
   A created session is in the map, under its own key only, exactly while its channel
   is open; a mapped session has an open connection and a handler still to finish.
   */
  lemma MappedIffOpen(init: State, actions: seq<Action>, i: Sid)
    requires Init(init) && CanRun(init, actions) && i < |After(init, actions).all|
    ensures var s := After(init, actions);
            && (Mapped(s, i) <==> !s.all[i].chanClosed)
            && (forall key <- s.sessions :: s.sessions[key] == i ==> key == s.all[i].key)
            && (Mapped(s, i) ==> s.all[i].connOpen && s.all[i].stage != Closing && s.all[i].stage != Finished)
  {
    ReachableInv(init, actions);
  }

  /** Every dialled connection is either closed once or still owned by an unfinished handler. */
  lemma DialsAreClosedOrOwned(init: State, actions: seq<Action>)
    requires Init(init) && CanRun(init, actions)
    ensures var s := After(init, actions);
            && s.dials == s.closes + (|s.all| - FinishedCount(s.all))
            && (forall i | 0 <= i < |s.all| :: s.all[i].connOpen <==> s.all[i].stage != Finished)
  {
    ReachableInv(init, actions);
  }

  /** closeSessionChan is only ever applied to an open channel. */
  lemma ChannelClosedOnce(init: State, actions: seq<Action>, i: Sid)
    requires Init(init) && CanRun(init, actions) && i < |After(init, actions).all|
    ensures var s := After(init, actions);
            && (s.all[i].stage == Leaving && Mapped(s, i) ==> !s.all[i].chanClosed)
            && (s.sweepAt.Some? && Drops(s, i, s.sweepAt.value) ==> !s.all[i].chanClosed)
  {
    ReachableInv(init, actions);
  }

  /** Action a takes session i out of the map by its own handler, or by a sweep that finds it idle for the timeout. */
  predicate Evicts(s: State, a: Action, i: Sid) {
    && i < |s.all|
    && ((a.Handler? && a.sid == i && s.all[i].stage == Leaving)
        || (a == Sweep && s.timeout > 0 && s.sweepAt.Some? && s.sweepAt.value - s.all[i].lastActive >= s.timeout))
  }

  lemma OnlyOwnHandlerOrSweepEvicts(s: State, a: Action, i: Sid)
    requires Inv(s) && Enabled(s, a) && Mapped(s, i) && !Mapped(Step(s, a), i)
    ensures Evicts(s, a, i)
  {
    if a == Sweep {
      assert Mapped(Step(s, a), i) <==> Mapped(s, i) && !Drops(s, i, s.sweepAt.value);
    }
  }

  /**
   In any run a mapped session leaves the map only through its own handler or through a
   sweep that finds it idle for the timeout; with timeout 0 only through its own handler.
   */
  lemma {:induction false} EvictionHasACause(s: State, actions: seq<Action>, i: Sid) returns (k: nat)
    requires Inv(s) && CanRun(s, actions) && Mapped(s, i) && !Mapped(After(s, actions), i)
    ensures k < |actions| && CanRun(s, actions[..k])
    ensures Mapped(After(s, actions[..k]), i) && Evicts(After(s, actions[..k]), actions[k], i)
    decreases |actions|
  {
    var s1 := Step(s, actions[0]);
    if Mapped(s1, i) {
      StepKeepsInv(s, actions[0]);
      var k1 := EvictionHasACause(s1, actions[1..], i);
      k := k1 + 1;
      assert actions[..k][1..] == actions[1..][..k1];
    } else {
      OnlyOwnHandlerOrSweepEvicts(s, actions[0], i);
      k := 0;
      assert actions[..0] == [];
    }
  }

  /** A session once created keeps its key, and a closed channel or connection never reopens. */
  lemma {:induction false} SessionsOnlyProgress(s: State, actions: seq<Action>, i: Sid)
    requires Inv(s) && CanRun(s, actions) && i < |s.all|
    ensures Progressed(s, After(s, actions), i)
    decreases |actions|
  {
    if actions != [] {
      var s1 := Step(s, actions[0]);
      StepKeepsInv(s, actions[0]);
      SessionProgress(s, actions[0], i);
      SessionsOnlyProgress(s1, actions[1..], i);
    }
  }

  predicate Progressed(s: State, s': State, i: Sid)
    requires i < |s.all|
  {
    && i < |s'.all| && s'.all[i].key == s.all[i].key
    && (s.all[i].chanClosed ==> s'.all[i].chanClosed)
    && (!s.all[i].connOpen ==> !s'.all[i].connOpen)
    && s.closes <= s'.closes
  }

  lemma SessionProgress(s: State, a: Action, i: Sid)
    requires Inv(s) && Enabled(s, a) && i < |s.all|
    ensures Progressed(s, Step(s, a), i)
  {
  }

  /** Steps a handler still has to take once its channel is closed. */
  function StepsLeft(stage: Stage): nat {
    match stage
    case Reading => 4
    case Looping => 3
    case TimedOut => 3
    case Leaving => 2
    case Closing => 1
    case Finished => 0
  }

  /** Every step of the handler of a closed session brings it nearer its end, so at most four remain. */
  lemma ClosedSessionWindsDown(s: State, i: Sid, outcome: Outcome)
    requires Inv(s) && i < |s.all| && s.all[i].chanClosed && s.all[i].stage != Finished
    ensures var s' := HandlerNext(s, i, outcome);
            s'.all[i].chanClosed && StepsLeft(s'.all[i].stage) < StepsLeft(s.all[i].stage) <= 4
  {
  }

  /** Another party never moves the handler of a session. */
  lemma OthersLeaveHandlerAlone(s: State, a: Action, i: Sid)
    requires Enabled(s, a) && i < |s.all| && !(a.Handler? && a.sid == i)
    ensures i < |Step(s, a).all| && Step(s, a).all[i].stage == s.all[i].stage
  {
  }

  /** How often the handler of session i moves in a run. */
  function HandlerSteps(actions: seq<Action>, i: Sid): nat {
    if actions == [] then 0
    else (if actions[0].Handler? && actions[0].sid == i then 1 else 0) + HandlerSteps(actions[1..], i)
  }

  /** In any run after its channel was closed a handler takes at most four more steps, and with four it has finished. */
  lemma {:induction false} ClosedHandlerIsBounded(s: State, actions: seq<Action>, i: Sid)
    requires Inv(s) && CanRun(s, actions) && i < |s.all| && s.all[i].chanClosed
    ensures i < |After(s, actions).all|
    ensures HandlerSteps(actions, i) + StepsLeft(After(s, actions).all[i].stage) <= StepsLeft(s.all[i].stage) <= 4
    decreases |actions|
  {
    if actions != [] {
      var a := actions[0];
      StepKeepsInv(s, a);
      SessionProgress(s, a, i);
      if a.Handler? && a.sid == i {
        ClosedSessionWindsDown(s, i, a.outcome);
      } else {
        OthersLeaveHandlerAlone(s, a, i);
      }
      ClosedHandlerIsBounded(Step(s, a), actions[1..], i);
    }
  }

  /**
   With the cleaner on, a mapped session has always been idle for less than the timeout
   plus one tick plus the time by which a sweep may be late.
   */
  lemma IdleBound(init: State, actions: seq<Action>, i: Sid)
    requires Init(init) && CanRun(init, actions)
    requires init.timeout > 0 && Mapped(After(init, actions), i)
    ensures var s := After(init, actions);
            s.now - s.all[i].lastActive < init.timeout + 10000 + init.slack
  {
    ReachableInv(init, actions);
    SettingsFixed(init, actions);
  }

  lemma {:induction false} SettingsFixed(s: State, actions: seq<Action>)
    requires CanRun(s, actions)
    ensures After(s, actions).timeout == s.timeout && After(s, actions).slack == s.slack
    decreases |actions|
  {
    if actions != [] {
      SettingsFixed(Step(s, actions[0]), actions[1..]);
    }
  }
}
