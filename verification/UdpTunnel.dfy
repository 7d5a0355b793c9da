/**
 The UDP tunnel of udp_proxy.go over session objects: a map from source address to
 session, each session updated in place by the reader, the cleaner and its handler.
 Every method is proved to change the objects as the matching action of the state
 machine does.
 */
module UdpTunnel {
  import opened Base
  import U = UdpSessions

  class UdpSession {
    ghost const id: nat
    const key: string
    var lastActive: int
    var chanClosed: bool
    var connOpen: bool
    var stage: U.Stage

    constructor (ghost id: nat, key: string, now: int)
      ensures this.id == id && this.key == key
      ensures Record() == U.Session(key, now, false, true, U.Looping)
    {
      this.id, this.key := id, key;
      lastActive, chanClosed, connOpen, stage := now, false, true, U.Looping;
    }

    ghost function Record(): U.Session
      reads this
    {
      U.Session(key, lastActive, chanClosed, connOpen, stage)
    }
  }

  ghost function RecordsOf(all: seq<UdpSession>): (records: seq<U.Session>)
    reads all
    ensures |records| == |all| && forall i | 0 <= i < |all| :: records[i] == all[i].Record()
  {
    seq(|all|, i requires 0 <= i < |all| reads all => all[i].Record())
  }

  class UdpTunnel {
    const timeout: nat
    const slack: nat
    var now: int
    var nextTick: int
    var sweepAt: Option<int>
    var sessions: map<string, UdpSession>
    var reader: Option<UdpSession>
    var dials: nat
    var closes: nat
    ghost var all: seq<UdpSession>
    ghost var swept: int

    /** Sessions are told apart by their place in `all`. */
    ghost predicate Valid()
      reads this`all, this`sessions, this`reader, all
    {
      && (forall i | 0 <= i < |all| :: all[i].id == i)
      && (forall key <- sessions :: Owned(sessions[key]) && sessions[key].key == key)
      && (reader.Some? ==> Owned(reader.value))
    }

    ghost predicate Owned(session: UdpSession)
      reads this`all
    {
      session.id < |all| && all[session.id] == session
    }

    ghost function Table(): (table: map<string, nat>)
      reads this`sessions
      ensures table.Keys == sessions.Keys && forall key <- sessions :: table[key] == sessions[key].id
    {
      map key | key in sessions :: sessions[key].id
    }

    ghost function Records(): (records: seq<U.Session>)
      reads this`all, all
      ensures |records| == |all| && forall i | 0 <= i < |all| :: records[i] == all[i].Record()
    {
      RecordsOf(all)
    }

    ghost function View(): U.State
      reads this, all
    {
      U.State(timeout, slack, now, nextTick, sweepAt,
              Table(), Records(),
              if reader.Some? then U.Sending(reader.value.id) else U.Listening,
              dials, closes, swept)
    }

    constructor (timeout: nat, slack: nat)
      ensures Valid() && U.Init(View()) && all == []
      ensures View().timeout == timeout && View().slack == slack
    {
      this.timeout, this.slack := timeout, slack;
      now, nextTick, sweepAt, sessions, reader := 0, U.TICK_MS, None, map[], None;
      dials, closes, all, swept := 0, 0, [], 0;
    }

    /** When only one session object changed, only its record did. */
    twostate lemma OneRecord(session: UdpSession)
      requires old(Valid()) && old(Owned(session))
      requires all == old(all) && sessions == old(sessions)
      requires forall i | 0 <= i < |all| && i != session.id :: all[i].Record() == old(all[i].Record())
      ensures Records() == old(Records())[session.id := session.Record()]
      ensures Table() == old(Table())
    {
    }

    method CloseSessionChan(session: UdpSession)
      modifies session`chanClosed
      ensures session.Record() == U.ChanClosed(old(session.Record()))
    {
      if !session.chanClosed {
        session.chanClosed := true;
      }
    }

    /** removeSession: by a handler for the session it was started with. */
    method RemoveSession(src: string, session: UdpSession)
      requires Valid() && Owned(session) && src == session.key
      modifies this`sessions, session`chanClosed
      ensures Valid()
      ensures View() == U.Removed(old(View()), session.id)
    {
      if src in sessions && sessions[src] == session {
        CloseSessionChan(session);
        sessions := sessions - {src};
        assert Records() == old(Records())[session.id := U.ChanClosed(old(session.Record()))];
        assert Table() == old(Table()) - {src};
      }
    }

    /** The session has been idle for the timeout at clock reading `at`. */
    ghost predicate Idle(session: UdpSession, at: int)
      reads session`lastActive
    {
      at - session.lastActive >= timeout
    }

    /** Exactly the idle sessions of the map have had their channel closed and their entry deleted. */
    twostate predicate Cleaned(at: int)
      reads this`all, this`sessions, all
    {
      && all == old(all)
      && sessions.Keys <= old(sessions).Keys
      && (forall key <- sessions :: sessions[key] == old(sessions)[key])
      && (forall key <- old(sessions) :: key in sessions <==> !old(Idle(sessions[key], at)))
      && (forall i | 0 <= i < |all| ::
            all[i].chanClosed <==>
              old(all[i].chanClosed)
              || (all[i].key in old(sessions) && old(sessions)[all[i].key] == all[i] && old(Idle(all[i], at))))
    }

    /** One entry of the map: closed and deleted if it has been idle for the timeout. */
    method CleanEntry(key: string, session: UdpSession, at: int)
      requires key in sessions && sessions[key] == session
      modifies this`sessions, session`chanClosed
      ensures sessions == if old(Idle(session, at)) then old(sessions) - {key} else old(sessions)
      ensures session.chanClosed <==> old(session.chanClosed) || old(Idle(session, at))
    {
      if at - session.lastActive >= timeout {
        CloseSessionChan(session);
        sessions := sessions - {key};
      }
    }

    /** The cleaner loop, from lock to unlock. */
    method CleanerLoop(at: int)
      requires Valid()
      modifies this`sessions, all`chanClosed
      ensures Valid()
      ensures Cleaned(at)
    {
      var keys := sessions.Keys;
      while keys != {}
        invariant keys <= sessions.Keys <= old(sessions).Keys
        invariant forall key <- sessions :: sessions[key] == old(sessions)[key]
        invariant forall key <- old(sessions) :: key in sessions <==> key in keys || !old(Idle(sessions[key], at))
        invariant forall i | 0 <= i < |all| ::
                    all[i].chanClosed <==>
                      old(all[i].chanClosed)
                      || (all[i].key in old(sessions) && old(sessions)[all[i].key] == all[i]
                          && old(Idle(all[i], at)) && all[i].key !in keys)
        decreases keys
      {
        var key :| key in keys;
        CleanEntry(key, sessions[key], at);
        keys := keys - {key};
      }
    }

    twostate lemma CleanedRecords(at: int)
      requires old(Valid()) && Cleaned(at)
      requires forall i | 0 <= i < |all| :: all[i].Record() == old(all[i].Record()).(chanClosed := all[i].chanClosed)
      ensures Records() == U.SweptRecords(old(View()), at)
    {
      var before := old(View());
      forall i | 0 <= i < |all|
        ensures U.Drops(before, i, at) <==>
                  all[i].key in old(sessions) && old(sessions)[all[i].key] == all[i] && old(Idle(all[i], at))
      {
        assert old(Owned(all[i]));
      }
    }

    twostate lemma CleanedTable(at: int)
      requires old(Valid()) && Cleaned(at)
      ensures Table() == U.SweptTable(old(View()), at)
    {
      var before := old(View());
      forall key | key in old(sessions) ensures U.IdleKey(before, key, at) <==> old(Idle(sessions[key], at)) {
        assert old(Owned(sessions[key]));
      }
    }

    /** The critical section of the cleaner, in terms of the table. */
    method CleanTable(at: int)
      requires Valid()
      modifies this`sessions, all`chanClosed
      ensures Valid()
      ensures View() ==
              old(View()).(all := U.SweptRecords(old(View()), at), sessions := U.SweptTable(old(View()), at))
    {
      CleanerLoop(at);
      CleanedRecords(at);
      CleanedTable(at);
    }

    method Sweep()
      requires Valid() && sweepAt.Some?
      modifies this`sessions, this`sweepAt, this`swept, all`chanClosed
      ensures Valid()
      ensures View() == U.Swept(old(View()), old(sweepAt.value))
    {
      var at := sweepAt.value;
      CleanTable(at);
      sweepAt, swept := None, at;
    }

    /** The reader receives a packet; `dialled` says whether Dial would succeed. */
    method GetOrCreateSession(src: string, dialled: bool) returns (session: Option<UdpSession>)
      requires Valid() && reader == None
      modifies this, all`lastActive
      ensures Valid()
      ensures View() == U.Received(old(View()), src, dialled)
      ensures session == reader
      ensures session == None <==> old(src !in sessions) && !dialled
    {
      if src in sessions {
        var found := sessions[src];
        found.lastActive := now;
        reader := Some(found);
        assert Records() == U.Received(old(View()), src, dialled).all;
        return reader;
      }
      if !dialled {
        return None;
      }
      CreateSession(src);
      return reader;
    }

    /** A session added to the map and to the end of `all`, and nothing else. */
    twostate lemma OneMoreRecord(src: string)
      requires old(Valid()) && src in sessions && sessions[src].id == |old(all)|
      requires all == old(all) + [sessions[src]] && sessions == old(sessions)[src := sessions[src]]
      requires forall session <- old(all) :: session.Record() == old(session.Record())
      ensures Records() == old(Records()) + [sessions[src].Record()]
      ensures Table() == old(Table())[src := |old(all)|]
    {
    }

    method CreateSession(src: string)
      requires Valid() && reader == None && src !in sessions
      modifies this
      ensures Valid()
      ensures View() == U.Received(old(View()), src, true)
      ensures reader.Some?
    {
      dials := dials + 1;
      var created := new UdpSession(|all|, src, now);
      all := all + [created];
      sessions := sessions[src := created];
      reader := Some(created);
      OneMoreRecord(src);
    }

    /** The reader stamps the session it holds and writes to its remote connection. */
    method Forward()
      requires Valid() && reader.Some?
      modifies this`reader, reader.value`lastActive
      ensures Valid()
      ensures U.Enabled(old(View()), U.Forward) && View() == U.Step(old(View()), U.Forward)
    {
      reader.value.lastActive := now;
      reader := None;
      assert Records() == U.Step(old(View()), U.Forward).all;
    }

    method Tick()
      requires Valid() && timeout > 0 && sweepAt == None && now >= nextTick
      modifies this`sweepAt, this`nextTick
      ensures Valid()
      ensures View() == U.Step(old(View()), U.Tick)
    {
      sweepAt := Some(now);
      nextTick := nextTick + U.TICK_MS;
    }

    /** A check of closeChan: at the head of the loop, and again after a time-out. */
    method CheckChannel(session: UdpSession)
      requires Valid() && Owned(session) && (session.stage == U.Looping || session.stage == U.TimedOut)
      modifies session`stage
      ensures Valid()
      ensures View() == U.HandlerNext(old(View()), session.id, U.Timeout)
    {
      var goOn := if session.stage == U.Looping then U.Reading else U.Looping;
      session.stage := if session.chanClosed then U.Leaving else goOn;
      OneRecord(session);
    }

    /** The blocking read has ended. */
    method FinishRead(session: UdpSession, outcome: U.Outcome)
      requires Valid() && Owned(session) && session.stage == U.Reading
      modifies session`lastActive, session`stage
      ensures Valid()
      ensures View() == U.HandlerNext(old(View()), session.id, outcome)
    {
      match outcome {
        case Timeout => session.stage := U.TimedOut;
        case ReadError => session.stage := U.Leaving;
        case Data(delivered) =>
          session.lastActive := now;
          session.stage := if delivered then U.Looping else U.Leaving;
      }
      OneRecord(session);
    }

    /** One step of the loop of handleRemoteToLocal. */
    method HandleRemoteToLocal(session: UdpSession, outcome: U.Outcome)
      requires Valid() && Owned(session)
      requires session.stage == U.Looping || session.stage == U.Reading || session.stage == U.TimedOut
      modifies session`lastActive, session`stage
      ensures Valid()
      ensures View() == U.HandlerNext(old(View()), session.id, outcome)
    {
      if session.stage == U.Reading {
        FinishRead(session, outcome);
      } else {
        CheckChannel(session);
      }
    }

    /** The deferred calls of handleRemoteToLocal: leave the table, then close the connection. */
    method LeaveTable(session: UdpSession)
      requires Valid() && Owned(session) && session.stage == U.Leaving
      modifies this`sessions, session`chanClosed, session`stage
      ensures Valid()
      ensures View() == U.HandlerNext(old(View()), session.id, U.Timeout)
    {
      RemoveSession(session.key, session);
      ghost var records := Records();
      session.stage := U.Closing;
      assert Records() == records[session.id := session.Record()];
    }

    method CloseRemote(session: UdpSession)
      requires Valid() && Owned(session) && session.stage == U.Closing
      modifies this`closes, session`connOpen, session`stage
      ensures Valid()
      ensures View() == U.HandlerNext(old(View()), session.id, U.Timeout)
    {
      session.connOpen := false;
      closes := closes + 1;
      session.stage := U.Finished;
      OneRecord(session);
    }
  }
}
