/**
 Which network callbacks ask for a restart: NetworkChangeDetector.java,
 NetworkRestartGate.java and the callbacks of ProxyService.java that join them.
 */
module NetworkMonitor {
  import opened Base

  // The detector, as a state and as the class that updates it.

  datatype DetectorState = DetectorState(
    initialized: bool, activeNetwork: Option<string>, linkFingerprint: Option<string>)

  const FRESH_DETECTOR := DetectorState(false, None, None)

  function ValueOrEmpty(value: Option<string>): string {
    match value
    case None => ""
    case Some(v) => v
  }

  class NetworkChangeDetector {
    var initialized: bool
    var activeNetwork: Option<string>
    var linkFingerprint: Option<string>

    ghost function View(): DetectorState
      reads this
    {
      DetectorState(initialized, activeNetwork, linkFingerprint)
    }

    constructor ()
      ensures View() == FRESH_DETECTOR
    {
      initialized, activeNetwork, linkFingerprint := false, None, None;
    }

    method OnAvailable(networkId: Option<string>) returns (restart: bool)
      modifies this
      ensures View() == Detected(old(View()), Available(ValueOrEmpty(networkId)))
      ensures restart == Changed(old(View()), Available(ValueOrEmpty(networkId)))
    {
      var value := ValueOrEmpty(networkId);
      var sameNetwork := initialized && activeNetwork == Some(value);
      restart := initialized && !sameNetwork;
      if !sameNetwork {
        linkFingerprint := None;
      }
      initialized := true;
      activeNetwork := Some(value);
    }

    method OnLinkProperties(networkId: Option<string>, fingerprint: Option<string>) returns (restart: bool)
      modifies this
      ensures View() == Detected(old(View()), Link(ValueOrEmpty(networkId), ValueOrEmpty(fingerprint)))
      ensures restart == Changed(old(View()), Link(ValueOrEmpty(networkId), ValueOrEmpty(fingerprint)))
    {
      var networkValue := ValueOrEmpty(networkId);
      var linkValue := ValueOrEmpty(fingerprint);
      if !initialized {
        initialized := true;
        activeNetwork := Some(networkValue);
        linkFingerprint := Some(linkValue);
        return false;
      }
      if activeNetwork != Some(networkValue) {
        activeNetwork := Some(networkValue);
        linkFingerprint := Some(linkValue);
        return true;
      }
      if linkFingerprint == None {
        linkFingerprint := Some(linkValue);
        return false;
      }
      var changed := linkFingerprint != Some(linkValue);
      linkFingerprint := Some(linkValue);
      return changed;
    }

    method OnLost(networkId: Option<string>)
      modifies this
      ensures View() == Detected(old(View()), Lost(ValueOrEmpty(networkId)))
    {
      if activeNetwork == Some(ValueOrEmpty(networkId)) {
        activeNetwork := None;
        linkFingerprint := None;
      }
    }
  }

  /** What the platform reports; null identifiers arrive as the empty string. */
  datatype Event = Available(network: string) | Link(network: string, fingerprint: string) | Lost(network: string)

  /** The detector after one event. */
  function Detected(d: DetectorState, e: Event): DetectorState {
    match e
    case Available(n) =>
      DetectorState(true, Some(n), if d.initialized && d.activeNetwork == Some(n) then d.linkFingerprint else None)
    case Link(n, f) => DetectorState(true, Some(n), Some(f))
    case Lost(n) => if d.activeNetwork == Some(n) then DetectorState(d.initialized, None, None) else d
  }

  /** The answer given for an event. */
  predicate Changed(d: DetectorState, e: Event) {
    match e
    case Available(n) => d.initialized && d.activeNetwork != Some(n)
    case Link(n, f) =>
      d.initialized && (d.activeNetwork != Some(n) || (d.linkFingerprint.Some? && d.linkFingerprint != Some(f)))
    case Lost(_) => false
  }

  /** The detector after a history of events. */
  function Replay(h: seq<Event>): DetectorState {
    if h == [] then FRESH_DETECTOR else Detected(Replay(h[..|h| - 1]), h[|h| - 1])
  }

  // The same thing said about the history alone, without a state.

  /** The network was reported up by event k. */
  ghost predicate UpAt(h: seq<Event>, k: int) {
    0 <= k < |h| && !h[k].Lost?
  }

  ghost predicate Seen(h: seq<Event>) {
    exists k :: UpAt(h, k)
  }

  /** Event k is the latest report of a network that is up, and that network was not lost since. */
  ghost predicate Stands(h: seq<Event>, k: int) {
    UpAt(h, k) && forall j | k < j < |h| :: h[j].Lost? && h[j].network != h[k].network
  }

  /** The stay on the network of event k is unbroken to the end of the history. */
  ghost predicate StaysOn(h: seq<Event>, k: int) {
    UpAt(h, k) && forall j | k < j < |h| :: (h[j].Lost? <==> h[j].network != h[k].network)
  }

  /** Event k is the latest link report of an unbroken stay. */
  ghost predicate LastLink(h: seq<Event>, k: int) {
    StaysOn(h, k) && h[k].Link? && forall j | k < j < |h| :: !h[j].Link?
  }

  ghost predicate Current(h: seq<Event>, network: string) {
    exists k :: Stands(h, k) && h[k].network == network
  }

  ghost predicate LastFingerprint(h: seq<Event>, fingerprint: string) {
    exists k :: LastLink(h, k) && h[k].fingerprint == fingerprint
  }

  /** The three fields of the detector, each in terms of the history. */
  ghost predicate Explains(h: seq<Event>, d: DetectorState) {
    && (d.initialized <==> Seen(h))
    && (forall n :: Current(h, n) <==> d.activeNetwork == Some(n))
    && (forall f :: LastFingerprint(h, f) <==> d.linkFingerprint == Some(f))
    && (forall k | LastLink(h, k) :: d.activeNetwork == Some(h[k].network))
  }

  /** Taking one more event into account, said about histories only. */
  lemma OneMoreEvent(h: seq<Event>, e: Event)
    ensures Seen(h + [e]) <==> Seen(h) || !e.Lost?
    ensures forall n :: Current(h + [e], n) <==> if e.Lost? then Current(h, n) && n != e.network else n == e.network
    ensures forall k :: LastLink(h + [e], k) <==>
              if e.Link? then k == |h|
              else LastLink(h, k) && (e.Lost? <==> e.network != h[k].network)
  {
    var h' := h + [e];
    assert h'[|h|] == e;
    assert forall k :: UpAt(h, k) ==> UpAt(h', k) && h'[k] == h[k];
    assert forall k :: UpAt(h', k) && k < |h| ==> UpAt(h, k);
    if !e.Lost? {
      assert UpAt(h', |h|);
      assert Stands(h', |h|);
    }
    forall n
      ensures Current(h', n) <==> if e.Lost? then Current(h, n) && n != e.network else n == e.network
    {
      if Current(h', n) {
        var k :| Stands(h', k) && h'[k].network == n;
        if k < |h| {
          assert forall j | k < j < |h| :: h[j] == h'[j];
          assert Stands(h, k);
        }
      }
      if e.Lost? && Current(h, n) && n != e.network {
        var k :| Stands(h, k) && h[k].network == n;
        assert Stands(h', k);
      }
    }
    forall k
      ensures LastLink(h', k) <==>
                if e.Link? then k == |h| else LastLink(h, k) && (e.Lost? <==> e.network != h[k].network)
    {
      if LastLink(h', k) && k < |h| {
        assert forall j | k < j < |h| :: h[j] == h'[j];
        assert !h'[|h|].Link?;
        assert LastLink(h, k);
      }
    }
  }

  /** Over any history the fields hold exactly what the history says they should. */
  lemma {:induction false} ReplayExplained(h: seq<Event>)
    ensures Explains(h, Replay(h))
    decreases |h|
  {
    if h != [] {
      var p, e := h[..|h| - 1], h[|h| - 1];
      assert h == p + [e];
      ReplayExplained(p);
      OneMoreEvent(p, e);
      var d := Replay(p);
      forall f
        ensures LastFingerprint(h, f) <==> Detected(d, e).linkFingerprint == Some(f)
      {
        if LastFingerprint(h, f) {
          var k :| LastLink(h, k) && h[k].fingerprint == f;
          if !e.Link? {
            assert LastFingerprint(p, f);
          }
        }
        if Detected(d, e).linkFingerprint == Some(f) {
          if e.Link? {
            assert LastLink(h, |p|);
          } else {
            assert LastFingerprint(p, f);
            var k :| LastLink(p, k) && p[k].fingerprint == f;
            assert LastLink(h, k);
          }
        }
      }
    }
  }

  /** When the history alone calls for a restart. */
  ghost predicate CallsForRestart(h: seq<Event>, e: Event) {
    match e
    case Available(n) => Seen(h) && !Current(h, n)
    case Link(n, f) => Seen(h) && (!Current(h, n) || exists g :: g != f && LastFingerprint(h, g))
    case Lost(_) => false
  }

  /** The detector answers true exactly when the history calls for it. */
  lemma DetectorRefinesHistory(h: seq<Event>, e: Event)
    ensures Changed(Replay(h), e) <==> CallsForRestart(h, e)
  {
    ReplayExplained(h);
    if e.Link? && Replay(h).linkFingerprint.Some? {
      assert LastFingerprint(h, Replay(h).linkFingerprint.value);
    }
  }

  // The settle window.

  const NETWORK_SETTLE_WINDOW_MS := 10000
  const NEVER := -0x8000_0000_0000_0000

  class NetworkRestartGate {
    const settleWindowMs: int
    var lastDefaultNetworkChangeMs: int

    constructor (window: int)
      ensures settleWindowMs == window && lastDefaultNetworkChangeMs == NEVER
    {
      settleWindowMs := window;
      lastDefaultNetworkChangeMs := NEVER;
    }

    method OnDefaultNetworkChanged(nowMs: int)
      modifies this
      ensures lastDefaultNetworkChangeMs == nowMs
    {
      lastDefaultNetworkChangeMs := nowMs;
    }

    method ShouldRestartForLinkChange(nowMs: int) returns (open: bool)
      ensures open == GateOpen(lastDefaultNetworkChangeMs, settleWindowMs, nowMs)
    {
      if lastDefaultNetworkChangeMs == NEVER {
        return true;
      }
      return nowMs - lastDefaultNetworkChangeMs >= settleWindowMs;
    }
  }

  predicate GateOpen(last: int, window: int, nowMs: int) {
    last == NEVER || nowMs - last >= window
  }

  /** A platform callback with the clock reading it acts on; no callback reads the clock more than once. */
  datatype Callback =
    | OnAvailable(network: string, nowMs: nat)
    | OnLinkProperties(network: string, fingerprint: string, nowMs: nat)
    | OnLost(network: string, nowMs: nat)
    | OnConnectivity(active: Option<string>, properties: Option<string>, nowMs: nat)

  /** What a callback asks of the supervisor. */
  datatype Verdict = NoRestart | DefaultNetworkChanged | NetworkAddressChanged

  datatype Monitor = Monitor(detector: DetectorState, lastChange: int)

  const FRESH_MONITOR := Monitor(FRESH_DETECTOR, NEVER)

  function LinkVerdict(m: Monitor, e: Event, nowMs: nat): Verdict {
    if Changed(m.detector, e) && GateOpen(m.lastChange, NETWORK_SETTLE_WINDOW_MS, nowMs) then NetworkAddressChanged
    else NoRestart
  }

  function AfterAvailable(m: Monitor, n: string, nowMs: nat): (Monitor, Verdict) {
    var detector := Detected(m.detector, Available(n));
    if Changed(m.detector, Available(n)) then (Monitor(detector, nowMs), DefaultNetworkChanged)
    else (Monitor(detector, m.lastChange), NoRestart)
  }

  function AfterLink(m: Monitor, n: string, f: string, nowMs: nat): (Monitor, Verdict) {
    (Monitor(Detected(m.detector, Link(n, f)), m.lastChange), LinkVerdict(m, Link(n, f), nowMs))
  }

  /** One callback: the new state and what is asked. */
  function Handled(m: Monitor, c: Callback): (Monitor, Verdict) {
    match c
    case OnAvailable(n, nowMs) => AfterAvailable(m, n, nowMs)
    case OnLinkProperties(n, f, nowMs) => AfterLink(m, n, f, nowMs)
    case OnLost(n, _) => (Monitor(Detected(m.detector, Lost(n)), m.lastChange), NoRestart)
    case OnConnectivity(None, _, _) => (m, NoRestart)
    case OnConnectivity(Some(n), properties, nowMs) =>
      var (m1, v1) := AfterAvailable(m, n, nowMs);
      match properties
      case None => (m1, v1)
      case Some(f) =>
        var (m2, v2) := AfterLink(m1, n, f, nowMs);
        (m2, if v1 == DefaultNetworkChanged then v1 else v2)
  }

  /** The callbacks of ProxyService joining the detector and the gate. */
  class NetworkCallbacks {
    const detector: NetworkChangeDetector
    const gate: NetworkRestartGate

    ghost function View(): Monitor
      reads detector, gate
    {
      Monitor(detector.View(), gate.lastDefaultNetworkChangeMs)
    }

    constructor ()
      ensures View() == FRESH_MONITOR && gate.settleWindowMs == NETWORK_SETTLE_WINDOW_MS
      ensures fresh(detector) && fresh(gate)
    {
      detector := new NetworkChangeDetector();
      gate := new NetworkRestartGate(NETWORK_SETTLE_WINDOW_MS);
    }

    method Available(network: string, nowMs: nat) returns (verdict: Verdict)
      modifies detector, gate
      ensures (View(), verdict) == Handled(old(View()), OnAvailable(network, nowMs))
    {
      verdict := NoRestart;
      var changed := detector.OnAvailable(Some(network));
      if changed {
        gate.OnDefaultNetworkChanged(nowMs);
        verdict := DefaultNetworkChanged;
      }
    }

    method LinkPropertiesChanged(network: string, fingerprint: string, nowMs: nat) returns (verdict: Verdict)
      requires gate.settleWindowMs == NETWORK_SETTLE_WINDOW_MS
      modifies detector
      ensures (View(), verdict) == Handled(old(View()), OnLinkProperties(network, fingerprint, nowMs))
    {
      verdict := NoRestart;
      var changed := detector.OnLinkProperties(Some(network), Some(fingerprint));
      if changed {
        var open := gate.ShouldRestartForLinkChange(nowMs);
        if open {
          verdict := NetworkAddressChanged;
        }
      }
    }

    method NetworkLost(network: string, nowMs: nat)
      modifies detector
      ensures View() == Handled(old(View()), OnLost(network, nowMs)).0
    {
      detector.OnLost(Some(network));
    }

    method HandleLegacyNetworkChange(active: Option<string>, properties: Option<string>, nowMs: nat)
      returns (verdict: Verdict)
      requires gate.settleWindowMs == NETWORK_SETTLE_WINDOW_MS
      modifies detector, gate
      ensures (View(), verdict) == Handled(old(View()), OnConnectivity(active, properties, nowMs))
    {
      if active == None {
        return NoRestart;
      }
      var networkChanged := detector.OnAvailable(active);
      if networkChanged {
        gate.OnDefaultNetworkChanged(nowMs);
      }
      var linkChanged := false;
      if properties.Some? {
        linkChanged := detector.OnLinkProperties(active, properties);
      }
      if networkChanged {
        return DefaultNetworkChanged;
      }
      if linkChanged {
        var open := gate.ShouldRestartForLinkChange(nowMs);
        if open {
          return NetworkAddressChanged;
        }
      }
      return NoRestart;
    }
  }

  function Monitored(cs: seq<Callback>): Monitor {
    if cs == [] then FRESH_MONITOR else Handled(Monitored(cs[..|cs| - 1]), cs[|cs| - 1]).0
  }

  function VerdictAt(cs: seq<Callback>, i: nat): Verdict
    requires i < |cs|
  {
    Handled(Monitored(cs[..i]), cs[i]).1
  }

  ghost predicate ClockForward(cs: seq<Callback>) {
    forall i, j | 0 <= i < j < |cs| :: cs[i].nowMs <= cs[j].nowMs
  }

  ghost predicate LastChangeIs(cs: seq<Callback>, last: int) {
    && (last == NEVER ==> forall i | 0 <= i < |cs| :: VerdictAt(cs, i) != DefaultNetworkChanged)
    && (last != NEVER ==>
          && (exists i :: 0 <= i < |cs| && VerdictAt(cs, i) == DefaultNetworkChanged && cs[i].nowMs == last)
          && (forall i | 0 <= i < |cs| && VerdictAt(cs, i) == DefaultNetworkChanged :: cs[i].nowMs <= last))
  }

  lemma LastChangeStep(m: Monitor, c: Callback)
    ensures Handled(m, c).0.lastChange == if Handled(m, c).1 == DefaultNetworkChanged then c.nowMs else m.lastChange
  {
  }

  lemma VerdictsOfPrefix(p: seq<Callback>, c: Callback)
    ensures forall i | 0 <= i < |p| :: VerdictAt(p + [c], i) == VerdictAt(p, i)
    ensures VerdictAt(p + [c], |p|) == Handled(Monitored(p), c).1
    ensures Monitored(p + [c]) == Handled(Monitored(p), c).0
  {
    assert forall i | 0 <= i <= |p| :: (p + [c])[..i] == p[..i];
    assert p[..|p|] == p;
  }

  lemma {:induction false} GateRemembersLastChange(cs: seq<Callback>)
    requires ClockForward(cs)
    ensures LastChangeIs(cs, Monitored(cs).lastChange)
    decreases |cs|
  {
    if cs != [] {
      var n := |cs| - 1;
      var p, c := cs[..n], cs[n];
      assert cs == p + [c];
      GateRemembersLastChange(p);
      VerdictsOfPrefix(p, c);
      LastChangeStep(Monitored(p), c);
      OneMoreChange(p, c, Monitored(p).lastChange, VerdictAt(cs, n), Monitored(cs).lastChange);
    }
  }

  lemma OneMoreChange(p: seq<Callback>, c: Callback, last: int, verdict: Verdict, last': int)
    requires ClockForward(p + [c]) && LastChangeIs(p, last)
    requires verdict == VerdictAt(p + [c], |p|)
    requires last' == if verdict == DefaultNetworkChanged then c.nowMs else last
    ensures LastChangeIs(p + [c], last')
  {
    var cs := p + [c];
    VerdictsOfPrefix(p, c);
    assert forall i | 0 <= i < |p| :: cs[i] == p[i];
    if verdict == DefaultNetworkChanged {
      assert VerdictAt(cs, |p|) == DefaultNetworkChanged && cs[|p|].nowMs == last';
    } else if last != NEVER {
      var i :| 0 <= i < |p| && VerdictAt(p, i) == DefaultNetworkChanged && p[i].nowMs == last;
      assert VerdictAt(cs, i) == DefaultNetworkChanged && cs[i].nowMs == last';
    }
  }

  lemma PrefixClock(cs: seq<Callback>, c: Callback)
    requires ClockForward(cs + [c])
    ensures ClockForward(cs)
  {
    assert forall i | 0 <= i < |cs| :: (cs + [c])[i] == cs[i];
  }

  /** The gate is open exactly when every default-network change so far is at least a settle window old. */
  lemma GateOpenIff(cs: seq<Callback>, nowMs: nat)
    requires ClockForward(cs)
    ensures GateOpen(Monitored(cs).lastChange, NETWORK_SETTLE_WINDOW_MS, nowMs)
            <==> forall i | 0 <= i < |cs| && VerdictAt(cs, i) == DefaultNetworkChanged ::
                   nowMs - cs[i].nowMs >= 10000
  {
    GateRemembersLastChange(cs);
  }

  lemma ClosedGateIsQuiet(m: Monitor, c: Callback)
    requires m.lastChange != NEVER && c.nowMs - m.lastChange < NETWORK_SETTLE_WINDOW_MS
    ensures Handled(m, c).1 != NetworkAddressChanged
  {
  }

  /** No callback of either kind asks for a link restart inside a settle window. */
  lemma SettleWindowIsQuiet(cs: seq<Callback>, i: nat, j: nat)
    requires ClockForward(cs) && i < j < |cs|
    requires VerdictAt(cs, i) == DefaultNetworkChanged
    requires cs[j].nowMs - cs[i].nowMs < 10000
    ensures VerdictAt(cs, j) != NetworkAddressChanged
  {
    var p := cs[..j];
    GateRemembersLastChange(p);
    assert p[..i] == cs[..i];
    assert VerdictAt(p, i) == DefaultNetworkChanged;
    assert Monitored(p).lastChange >= p[i].nowMs;
    ClosedGateIsQuiet(Monitored(p), cs[j]);
  }

  /** The events the detector sees in a sequence of callbacks. */
  function EventsOf(c: Callback): seq<Event> {
    match c
    case OnAvailable(n, _) => [Available(n)]
    case OnLinkProperties(n, f, _) => [Link(n, f)]
    case OnLost(n, _) => [Lost(n)]
    case OnConnectivity(None, _, _) => []
    case OnConnectivity(Some(n), None, _) => [Available(n)]
    case OnConnectivity(Some(n), Some(f), _) => [Available(n), Link(n, f)]
  }

  function History(cs: seq<Callback>): seq<Event> {
    if cs == [] then [] else History(cs[..|cs| - 1]) + EventsOf(cs[|cs| - 1])
  }

  lemma ReplayOne(h: seq<Event>, e: Event)
    ensures Replay(h + [e]) == Detected(Replay(h), e)
  {
    assert (h + [e])[..|h|] == h;
  }

  lemma {:induction false} ReplayMore(h: seq<Event>, es: seq<Event>)
    ensures Replay(h + es) == DetectedAll(Replay(h), es)
    decreases |es|
  {
    if es == [] {
      assert h + es == h;
    } else {
      ReplayOne(h, es[0]);
      ReplayMore(h + [es[0]], es[1..]);
      assert h + [es[0]] + es[1..] == h + es;
    }
  }

  function DetectedAll(d: DetectorState, es: seq<Event>): DetectorState
    decreases |es|
  {
    if es == [] then d else DetectedAll(Detected(d, es[0]), es[1..])
  }

  lemma HandledEvents(m: Monitor, c: Callback)
    ensures Handled(m, c).0.detector == DetectedAll(m.detector, EventsOf(c))
  {
    if c.OnConnectivity? && c.active.Some? && c.properties.Some? {
      var es := EventsOf(c);
      assert es[1..][1..] == [];
      assert DetectedAll(Detected(m.detector, es[0]), es[1..]) == Detected(Detected(m.detector, es[0]), es[1]);
    }
  }

  /** The detector inside the monitor has seen exactly that history. */
  lemma {:induction false} MonitorReplaysHistory(cs: seq<Callback>)
    ensures Monitored(cs).detector == Replay(History(cs))
    decreases |cs|
  {
    if cs != [] {
      var p, c := cs[..|cs| - 1], cs[|cs| - 1];
      MonitorReplaysHistory(p);
      HandledEvents(Monitored(p), c);
      ReplayMore(History(p), EventsOf(c));
    }
  }

  /**
   A link-only callback asks for a restart exactly when the history calls for one and
   every default-network change so far is at least a settle window old.
   */
  lemma LinkRestartsOutsideSettleWindow(cs: seq<Callback>, n: string, f: string, nowMs: nat)
    requires ClockForward(cs + [OnLinkProperties(n, f, nowMs)])
    ensures Handled(Monitored(cs), OnLinkProperties(n, f, nowMs)).1 == NetworkAddressChanged
            <==> CallsForRestart(History(cs), Link(n, f))
                 && forall i | 0 <= i < |cs| && VerdictAt(cs, i) == DefaultNetworkChanged ::
                      nowMs - cs[i].nowMs >= 10000
  {
    PrefixClock(cs, OnLinkProperties(n, f, nowMs));
    GateOpenIff(cs, nowMs);
    MonitorReplaysHistory(cs);
    DetectorRefinesHistory(History(cs), Link(n, f));
  }

  /** A default-network callback asks for a restart exactly when the history calls for one. */
  lemma AvailableRestartsByHistory(cs: seq<Callback>, n: string, nowMs: nat)
    ensures Handled(Monitored(cs), OnAvailable(n, nowMs)).1 == DefaultNetworkChanged
            <==> CallsForRestart(History(cs), Available(n))
  {
    MonitorReplaysHistory(cs);
    DetectorRefinesHistory(History(cs), Available(n));
  }

  lemma LegacyVerdict(m: Monitor, n: string, properties: Option<string>, nowMs: nat)
    ensures var verdict := Handled(m, OnConnectivity(Some(n), properties, nowMs)).1;
            && (verdict == DefaultNetworkChanged <==> Changed(m.detector, Available(n)))
            && (verdict == NetworkAddressChanged <==>
                  && !Changed(m.detector, Available(n))
                  && properties.Some? && Changed(Detected(m.detector, Available(n)), Link(n, properties.value))
                  && GateOpen(m.lastChange, NETWORK_SETTLE_WINDOW_MS, nowMs))
  {
  }

  /**
   The same for a legacy callback, which acts as an Available event and then, if it has
   link properties, as a Link event: first the default network is compared with the
   history, and only if that is unchanged the fingerprint, through the gate.
   */
  lemma LegacyRestartsByHistory(cs: seq<Callback>, n: string, properties: Option<string>, nowMs: nat)
    requires ClockForward(cs + [OnConnectivity(Some(n), properties, nowMs)])
    ensures var verdict := Handled(Monitored(cs), OnConnectivity(Some(n), properties, nowMs)).1;
            && (verdict == DefaultNetworkChanged <==> CallsForRestart(History(cs), Available(n)))
            && (verdict == NetworkAddressChanged <==>
                  && !CallsForRestart(History(cs), Available(n))
                  && properties.Some? && CallsForRestart(History(cs) + [Available(n)], Link(n, properties.value))
                  && forall i | 0 <= i < |cs| && VerdictAt(cs, i) == DefaultNetworkChanged ::
                       nowMs - cs[i].nowMs >= 10000)
  {
    PrefixClock(cs, OnConnectivity(Some(n), properties, nowMs));
    GateOpenIff(cs, nowMs);
    LegacyVerdict(Monitored(cs), n, properties, nowMs);
    MonitorReplaysHistory(cs);
    DetectorRefinesHistory(History(cs), Available(n));
    if properties.Some? {
      ReplayOne(History(cs), Available(n));
      DetectorRefinesHistory(History(cs) + [Available(n)], Link(n, properties.value));
    }
  }

  /** Without an active network a legacy callback asks for nothing and is not part of the history. */
  lemma NoNetworkNoRestart(cs: seq<Callback>, properties: Option<string>, nowMs: nat)
    ensures Handled(Monitored(cs), OnConnectivity(None, properties, nowMs)) == (Monitored(cs), NoRestart)
    ensures History(cs + [OnConnectivity(None, properties, nowMs)]) == History(cs)
  {
    assert (cs + [OnConnectivity(None, properties, nowMs)])[..|cs|] == cs;
  }
}
