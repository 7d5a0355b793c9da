/**
 CreateIPCRequest of wireguard.go, which prints a device configuration in the
 configuration protocol of the WireGuard Cross-platform Interface, and a reader of that
 protocol used to state what the text means.
 */
module IpcRequest {
  import opened Base
  import opened Text
  import opened Decimal
  import opened AwgConfig

  type Pair = (string, string)

  // Lines of the form key=value.

  predicate IsKey(k: string) {
    '=' !in k && '\n' !in k
  }

  predicate IsPair(p: Pair) {
    IsKey(p.0) && '\n' !in p.1
  }

  function Line(p: Pair): string {
    p.0 + "=" + p.1 + "\n"
  }

  function Render(pairs: seq<Pair>): string {
    if pairs == [] then "" else Line(pairs[0]) + Render(pairs[1..])
  }

  lemma {:induction false} RenderConcat(a: seq<Pair>, b: seq<Pair>)
    ensures Render(a + b) == Render(a) + Render(b)
  {
    if a == [] {
      assert a + b == b;
    } else {
      assert (a + b)[1..] == a[1..] + b;
      RenderConcat(a[1..], b);
      assert Render(a + b) == Line(a[0]) + (Render(a[1..]) + Render(b));
    }
  }

  /** Cuts a line at its first '='. */
  function PairOf(line: string): Option<Pair> {
    var i := IndexOf(line, '=');
    if i < 0 then None else Some((line[..i], line[i + 1..]))
  }

  function PairsOf(lines: seq<string>): Option<seq<Pair>> {
    if lines == [] then Some([])
    else
      var first, rest := PairOf(lines[0]), PairsOf(lines[1..]);
      if first.Some? && rest.Some? then Some([first.value] + rest.value) else None
  }

  /** Reads a text of complete lines. */
  function ReadPairs(text: string): Option<seq<Pair>> {
    var lines := Split(text, '\n');
    if lines[|lines| - 1] != "" then None else PairsOf(lines[..|lines| - 1])
  }

  lemma PairOfLine(p: Pair)
    requires IsPair(p)
    ensures PairOf(p.0 + "=" + p.1) == Some(p)
  {
    var line := p.0 + "=" + p.1;
    FirstAfter(p.0, '=', p.1);
    assert line[..|p.0|] == p.0 && line[|p.0| + 1..] == p.1;
  }

  /** One rendered line in front of a text adds one pair in front. */
  lemma ReadOneMore(p: Pair, text: string)
    requires IsPair(p)
    ensures ReadPairs(Line(p) + text) ==
              match ReadPairs(text) case None => None case Some(rest) => Some([p] + rest)
  {
    var line := p.0 + "=" + p.1;
    assert Line(p) + text == line + ['\n'] + text;
    SplitWithoutSeparator(line, '\n');
    SplitConcat(line, text, '\n');
    PairOfLine(p);
    OneMoreLine(line, Split(text, '\n'));
  }

  lemma OneMoreLine(line: string, tail: seq<string>)
    requires tail != []
    ensures var lines := [line] + tail;
            && lines[|lines| - 1] == tail[|tail| - 1]
            && lines[..|lines| - 1] == [line] + tail[..|tail| - 1]
            && lines[..|lines| - 1] != []
            && lines[..|lines| - 1][0] == line
            && lines[..|lines| - 1][1..] == tail[..|tail| - 1]
  {
  }

  /** Rendered pairs read back as themselves. */
  lemma {:induction false} RenderRoundTrip(pairs: seq<Pair>)
    requires forall p <- pairs :: IsPair(p)
    ensures ReadPairs(Render(pairs)) == Some(pairs)
  {
    if pairs != [] {
      assert pairs[0] in pairs && forall q | q in pairs[1..] :: q in pairs;
      RenderRoundTrip(pairs[1..]);
      ReadOneMore(pairs[0], Render(pairs[1..]));
      assert pairs == [pairs[0]] + pairs[1..];
    }
  }

  // Optional entries.

  datatype Entry = Entry(key: string, value: Option<string>)

  function Emit(entries: seq<Entry>): seq<Pair> {
    if entries == [] then []
    else (if entries[0].value.Some? then [(entries[0].key, entries[0].value.value)] else []) + Emit(entries[1..])
  }

  /** The ini section a reader builds from key=value pairs. */
  function SectionOf(pairs: seq<Pair>): Keys {
    if pairs == [] then map[] else SectionOf(pairs[1..])[pairs[0].0 := pairs[0].1]
  }

  ghost predicate DistinctKeys(entries: seq<Entry>) {
    forall i, j | 0 <= i < j < |entries| :: entries[i].key != entries[j].key
  }

  ghost predicate Holds(section: Keys, e: Entry) {
    match e.value
    case None => e.key !in section
    case Some(v) => e.key in section && section[e.key] == v
  }

  /** With distinct keys the section holds exactly the entries that were set. */
  lemma {:induction false} EmitHolds(entries: seq<Entry>)
    requires DistinctKeys(entries)
    ensures forall i | 0 <= i < |entries| :: Holds(SectionOf(Emit(entries)), entries[i])
    ensures forall k <- SectionOf(Emit(entries)) :: exists i :: 0 <= i < |entries| && entries[i].key == k
    ensures forall p <- Emit(entries) :: exists i :: 0 <= i < |entries| && entries[i] == Entry(p.0, Some(p.1))
  {
    if entries != [] {
      var e, rest := entries[0], entries[1..];
      EmitHolds(rest);
      var inner := SectionOf(Emit(rest));
      forall i | 0 <= i < |rest| ensures rest[i].key != e.key {
        assert entries[i + 1].key != entries[0].key;
      }
      assert e.key !in inner;
      if e.value.Some? {
        var pair := (e.key, e.value.value);
        assert ([pair] + Emit(rest))[1..] == Emit(rest);
      } else {
        assert Emit(entries) == Emit(rest);
      }
      forall i | 0 <= i < |entries| ensures Holds(SectionOf(Emit(entries)), entries[i]) {
        if i > 0 {
          assert entries[i] == rest[i - 1];
        }
      }
      forall k | k in SectionOf(Emit(entries)) ensures exists i :: 0 <= i < |entries| && entries[i].key == k {
        if k != e.key {
          var i :| 0 <= i < |rest| && rest[i].key == k;
          assert entries[i + 1].key == k;
        }
      }
      forall p | p in Emit(entries) ensures exists i :: 0 <= i < |entries| && entries[i] == Entry(p.0, Some(p.1)) {
        if p in Emit(rest) {
          var i :| 0 <= i < |rest| && rest[i] == Entry(p.0, Some(p.1));
          assert entries[i + 1] == Entry(p.0, Some(p.1));
        } else {
          assert entries[0] == Entry(p.0, Some(p.1));
        }
      }
    }
  }

  // The AmneziaWG lines.

  function PrintedInt(n: Option<int>): Option<string> {
    match n case None => None case Some(v) => Some(PrintInt(v))
  }

  function PrintedRange(r: Option<Range>): Option<string> {
    match r case None => None case Some(v) => Some(FormatRange(v))
  }

  function JunkEntries(j: Junk): seq<Entry> {
    [Entry("jc", PrintedInt(j.jc)), Entry("jmin", PrintedInt(j.jmin)), Entry("jmax", PrintedInt(j.jmax))]
  }

  function SizesEntries(s: Sizes): seq<Entry> {
    [Entry("s1", PrintedInt(s.s1)), Entry("s2", PrintedInt(s.s2)),
     Entry("s3", PrintedInt(s.s3)), Entry("s4", PrintedInt(s.s4))]
  }

  function HeadersEntries(h: Headers): seq<Entry> {
    [Entry("h1", PrintedRange(h.h1)), Entry("h2", PrintedRange(h.h2)),
     Entry("h3", PrintedRange(h.h3)), Entry("h4", PrintedRange(h.h4))]
  }

  function PacketsEntries(p: Packets): seq<Entry> {
    [Entry("i1", p.i1), Entry("i2", p.i2), Entry("i3", p.i3), Entry("i4", p.i4), Entry("i5", p.i5)]
  }

  function AwgEntries(c: ASecConfig): seq<Entry> {
    JunkEntries(c.junk) + SizesEntries(c.sizes) + HeadersEntries(c.headers) + PacketsEntries(c.packets)
  }

  /** What comes before the peers. */
  function DeviceEntries(secretKey: string, listenPort: Option<int>, asec: Option<ASecConfig>): seq<Entry> {
    [Entry("private_key", Some(secretKey)), Entry("listen_port", PrintedInt(listenPort))]
    + AwgEntries(if asec.Some? then asec.value else NO_PARAMETERS)
  }

  /** The place of a device key, told by its first and last character. */
  function Place(k: string): int {
    if |k| < 2 then -1
    else
      var last := k[|k| - 1];
      var digit := last as int - '0' as int;
      match k[0]
      case 'p' => 0
      case 'l' => 1
      case 'j' => if last == 'c' then 2 else if last == 'n' then 3 else 4
      case 's' => 4 + digit
      case 'h' => 8 + digit
      case 'i' => 12 + digit
      case _ => -1
  }

  predicate AtPlace(e: Entry, i: int) {
    Place(e.key) == i && IsKey(e.key) && e.key != "" && e.key[0] != 'p'
  }

  lemma HeadersPlaces(h: Headers)
    ensures forall i | 0 <= i < 4 :: AtPlace(HeadersEntries(h)[i], 9 + i)
  {
  }

  lemma PacketsPlaces(p: Packets)
    ensures forall i | 0 <= i < 5 :: AtPlace(PacketsEntries(p)[i], 13 + i)
  {
  }

  lemma AwgPlaces(c: ASecConfig)
    ensures |AwgEntries(c)| == 16 && forall i | 0 <= i < 16 :: AtPlace(AwgEntries(c)[i], 2 + i)
  {
    HeadersPlaces(c.headers);
    PacketsPlaces(c.packets);
    var a := JunkEntries(c.junk);
    var b := a + SizesEntries(c.sizes);
    var d := b + HeadersEntries(c.headers);
    assert forall i | 0 <= i < 3 :: AwgEntries(c)[i] == a[i];
    assert forall i | 3 <= i < 7 :: AwgEntries(c)[i] == SizesEntries(c.sizes)[i - 3];
    assert forall i | 7 <= i < 11 :: AwgEntries(c)[i] == HeadersEntries(c.headers)[i - 7];
    assert forall i | 11 <= i < 16 :: AwgEntries(c)[i] == PacketsEntries(c.packets)[i - 11];
  }

  lemma DevicePlaces(secretKey: string, listenPort: Option<int>, asec: Option<ASecConfig>)
    ensures var entries := DeviceEntries(secretKey, listenPort, asec);
            && |entries| == 18
            && Place(entries[0].key) == 0 && Place(entries[1].key) == 1
            && forall i | 2 <= i < 18 :: AtPlace(entries[i], i)
  {
    var c := if asec.Some? then asec.value else NO_PARAMETERS;
    var entries := DeviceEntries(secretKey, listenPort, asec);
    AwgPlaces(c);
    assert forall i | 2 <= i < 18 :: entries[i] == AwgEntries(c)[i - 2];
  }

  lemma DistinctByPlace(entries: seq<Entry>)
    requires forall i | 0 <= i < |entries| :: Place(entries[i].key) == i
    ensures DistinctKeys(entries)
  {
  }

  lemma DeviceKeysDistinct(secretKey: string, listenPort: Option<int>, asec: Option<ASecConfig>)
    ensures DistinctKeys(DeviceEntries(secretKey, listenPort, asec))
  {
    DevicePlaces(secretKey, listenPort, asec);
    DistinctByPlace(DeviceEntries(secretKey, listenPort, asec));
  }

  lemma NotAPublicKey(k: string)
    requires k != "" && (k[0] != 'p' || (|k| > 1 && k[1] != 'u'))
    ensures k != "public_key"
  {
  }

  lemma DeviceKeysAreKeys(secretKey: string, listenPort: Option<int>, asec: Option<ASecConfig>)
    ensures forall e <- DeviceEntries(secretKey, listenPort, asec) :: IsKey(e.key) && e.key != "public_key"
  {
    var entries := DeviceEntries(secretKey, listenPort, asec);
    DevicePlaces(secretKey, listenPort, asec);
    FirstKeys();
    forall i | 0 <= i < |entries| ensures IsKey(entries[i].key) && entries[i].key != "public_key" {
      if i >= 2 {
        NotAPublicKey(entries[i].key);
      }
    }
  }

  lemma FirstKeys()
    ensures IsKey("private_key") && "private_key" != "public_key"
    ensures IsKey("listen_port") && "listen_port" != "public_key"
  {
    NotAPublicKey("private_key");
    NotAPublicKey("listen_port");
  }

  lemma LowerPair(a: char, b: char)
    ensures LowerCase([a, b]) == [Lower(a), Lower(b)]
  {
    assert [b][1..] == "" && LowerCase([b]) == [Lower(b)];
    assert [a, b][1..] == [b];
  }

  lemma LowerOneMore(a: char, rest: string)
    ensures LowerCase([a] + rest) == [Lower(a)] + LowerCase(rest)
  {
    assert ([a] + rest)[1..] == rest;
  }

  lemma LowerJunkNames()
    ensures LowerCase("Jc") == "jc" && LowerCase("Jmin") == "jmin" && LowerCase("Jmax") == "jmax"
  {
    LowerPair('J', 'c');
    LowerPair('i', 'n');
    LowerOneMore('m', "in");
    LowerOneMore('J', ['m'] + "in");
    LowerPair('a', 'x');
    LowerOneMore('m', "ax");
    LowerOneMore('J', ['m'] + "ax");
    assert "Jmin" == ['J'] + (['m'] + "in") && "Jmax" == ['J'] + (['m'] + "ax");
  }

  lemma LowerSizesNames()
    ensures LowerCase("S1") == "s1" && LowerCase("S2") == "s2" && LowerCase("S3") == "s3" && LowerCase("S4") == "s4"
  {
    LowerPair('S', '1');
    LowerPair('S', '2');
    LowerPair('S', '3');
    LowerPair('S', '4');
  }

  lemma LowerHeadersNames()
    ensures LowerCase("H1") == "h1" && LowerCase("H2") == "h2" && LowerCase("H3") == "h3" && LowerCase("H4") == "h4"
  {
    LowerPair('H', '1');
    LowerPair('H', '2');
    LowerPair('H', '3');
    LowerPair('H', '4');
  }

  lemma LowerPacketsNames()
    ensures LowerCase("I1") == "i1" && LowerCase("I2") == "i2" && LowerCase("I3") == "i3"
    ensures LowerCase("I4") == "i4" && LowerCase("I5") == "i5"
  {
    LowerPair('I', '1');
    LowerPair('I', '2');
    LowerPair('I', '3');
    LowerPair('I', '4');
    LowerPair('I', '5');
  }

  // Reading the AmneziaWG lines back.

  predicate SingleLine(s: Option<string>) {
    s.Some? ==> '\n' !in s.value
  }

  predicate Int64(n: Option<int>) {
    n.Some? ==> IsInt64(n.value)
  }

  predicate Uint32(r: Option<Range>) {
    r.Some? ==> IsUint32Range(r.value)
  }

  /** The configs ParseASecConfig can return, nil aside. */
  ghost predicate Canonical(c: ASecConfig) {
    && c != NO_PARAMETERS && Accepted(c)
    && Int64(c.junk.jc) && Int64(c.junk.jmin) && Int64(c.junk.jmax)
    && Int64(c.sizes.s1) && Int64(c.sizes.s2) && Int64(c.sizes.s3) && Int64(c.sizes.s4)
    && Uint32(c.headers.h1) && Uint32(c.headers.h2) && Uint32(c.headers.h3) && Uint32(c.headers.h4)
    && SingleLine(c.packets.i1) && SingleLine(c.packets.i2) && SingleLine(c.packets.i3)
    && SingleLine(c.packets.i4) && SingleLine(c.packets.i5)
  }

  ghost predicate SingleLines(section: Keys) {
    forall k <- section :: '\n' !in section[k]
  }

  lemma ReturnedIsCanonical(section: Keys, c: ASecConfig)
    requires SingleLines(section) && Returns(section, Some(c))
    ensures Canonical(c)
  {
  }

  lemma IntReads(section: Keys, name: string, n: Option<int>)
    requires Holds(section, Entry(LowerCase(name), PrintedInt(n))) && Int64(n)
    ensures IntOf(section, name) == n && Readable(section, name, IntOf(section, name))
  {
    if n.Some? {
      GoIntRoundTrip(n.value);
    }
  }

  lemma RangeReads(section: Keys, name: string, r: Option<Range>)
    requires Holds(section, Entry(LowerCase(name), PrintedRange(r))) && Uint32(r)
    ensures RangeOf(section, name) == r && Readable(section, name, RangeOf(section, name))
  {
    if r.Some? {
      RangeRoundTrip(r.value);
    }
  }

  ghost predicate HoldsAll(section: Keys, entries: seq<Entry>) {
    forall i | 0 <= i < |entries| :: Holds(section, entries[i])
  }

  lemma JunkReads(section: Keys, j: Junk)
    requires HoldsAll(section, JunkEntries(j)) && Int64(j.jc) && Int64(j.jmin) && Int64(j.jmax)
    ensures JunkOf(section) == j && JunkReadable(section)
  {
    LowerJunkNames();
    assert Holds(section, JunkEntries(j)[0]) && Holds(section, JunkEntries(j)[1]) && Holds(section, JunkEntries(j)[2]);
    IntReads(section, "Jc", j.jc);
    IntReads(section, "Jmin", j.jmin);
    IntReads(section, "Jmax", j.jmax);
  }

  lemma SizesRead(section: Keys, s: Sizes)
    requires HoldsAll(section, SizesEntries(s)) && Int64(s.s1) && Int64(s.s2) && Int64(s.s3) && Int64(s.s4)
    ensures SizesOf(section) == s && SizesReadable(section)
  {
    LowerSizesNames();
    assert Holds(section, SizesEntries(s)[0]) && Holds(section, SizesEntries(s)[1]);
    assert Holds(section, SizesEntries(s)[2]) && Holds(section, SizesEntries(s)[3]);
    IntReads(section, "S1", s.s1);
    IntReads(section, "S2", s.s2);
    IntReads(section, "S3", s.s3);
    IntReads(section, "S4", s.s4);
  }

  lemma HeadersRead(section: Keys, h: Headers)
    requires HoldsAll(section, HeadersEntries(h)) && Uint32(h.h1) && Uint32(h.h2) && Uint32(h.h3) && Uint32(h.h4)
    ensures HeadersOf(section) == h && HeadersReadable(section)
  {
    LowerHeadersNames();
    assert Holds(section, HeadersEntries(h)[0]) && Holds(section, HeadersEntries(h)[1]);
    assert Holds(section, HeadersEntries(h)[2]) && Holds(section, HeadersEntries(h)[3]);
    RangeReads(section, "H1", h.h1);
    RangeReads(section, "H2", h.h2);
    RangeReads(section, "H3", h.h3);
    RangeReads(section, "H4", h.h4);
  }

  lemma PacketsRead(section: Keys, p: Packets)
    requires HoldsAll(section, PacketsEntries(p))
    ensures PacketsOf(section) == p
  {
    LowerPacketsNames();
    assert Holds(section, PacketsEntries(p)[0]) && Holds(section, PacketsEntries(p)[1]);
    assert Holds(section, PacketsEntries(p)[2]) && Holds(section, PacketsEntries(p)[3]);
    assert Holds(section, PacketsEntries(p)[4]);
  }

  lemma HoldsParts(section: Keys, c: ASecConfig)
    requires HoldsAll(section, AwgEntries(c))
    ensures HoldsAll(section, JunkEntries(c.junk)) && HoldsAll(section, SizesEntries(c.sizes))
    ensures HoldsAll(section, HeadersEntries(c.headers)) && HoldsAll(section, PacketsEntries(c.packets))
  {
    var all := AwgEntries(c);
    forall i | 0 <= i < 3 ensures Holds(section, JunkEntries(c.junk)[i]) {
      assert all[i] == JunkEntries(c.junk)[i];
    }
    forall i | 0 <= i < 4 ensures Holds(section, SizesEntries(c.sizes)[i]) {
      assert all[3 + i] == SizesEntries(c.sizes)[i];
    }
    forall i | 0 <= i < 4 ensures Holds(section, HeadersEntries(c.headers)[i]) {
      assert all[7 + i] == HeadersEntries(c.headers)[i];
    }
    forall i | 0 <= i < 5 ensures Holds(section, PacketsEntries(c.packets)[i]) {
      assert all[11 + i] == PacketsEntries(c.packets)[i];
    }
  }

  /** The config, or the parameters that print nothing in place of nil. */
  function OrNothing(config: Option<ASecConfig>): ASecConfig {
    if config.Some? then config.value else NO_PARAMETERS
  }

  /** Any section that holds the printed parameters is parsed to them. */
  lemma PrintedParametersParse(section: Keys, config: Option<ASecConfig>)
    requires HoldsAll(section, AwgEntries(OrNothing(config)))
    requires config.Some? ==> Canonical(config.value)
    ensures Returns(section, config)
  {
    var c := OrNothing(config);
    HoldsParts(section, c);
    JunkReads(section, c.junk);
    SizesRead(section, c.sizes);
    HeadersRead(section, c.headers);
    PacketsRead(section, c.packets);
  }

  lemma PrintedIsSingleLine(c: ASecConfig)
    requires c == NO_PARAMETERS || Canonical(c)
    ensures forall i | 0 <= i < 16 :: |AwgEntries(c)| == 16 && SingleLine(AwgEntries(c)[i].value)
  {
    AwgPlaces(c);
    IntsAreSingleLine();
    RangesAreSingleLine();
  }

  lemma IntsAreSingleLine()
    ensures forall n: Option<int> :: SingleLine(PrintedInt(n))
  {
    forall n: Option<int> ensures SingleLine(PrintedInt(n)) {
      if n.Some? {
        PrintIntCharacters(n.value);
      }
    }
  }

  lemma RangesAreSingleLine()
    ensures forall r: Option<Range> :: SingleLine(PrintedRange(r))
  {
    forall r: Option<Range> ensures SingleLine(PrintedRange(r)) {
      if r.Some? {
        PrintedDigits(r.value.min);
        PrintedDigits(r.value.max);
      }
    }
  }

  /**
   For every config ParseASecConfig can return, nil included, the key=value lines printed
   for it read back through ParseASecConfig to an equal config.
   */
  lemma AwgRoundTrip(section: Keys, config: Option<ASecConfig>)
    requires SingleLines(section) && Returns(section, config)
    ensures var pairs := Emit(AwgEntries(OrNothing(config)));
            ReadPairs(Render(pairs)) == Some(pairs) && Returns(SectionOf(pairs), config)
  {
    var entries := AwgEntries(OrNothing(config));
    if config.Some? {
      ReturnedIsCanonical(section, config.value);
    }
    AwgPlaces(OrNothing(config));
    assert DistinctKeys(entries) by {
      forall i, j | 0 <= i < j < |entries| ensures entries[i].key != entries[j].key {
        assert Place(entries[i].key) == 2 + i && Place(entries[j].key) == 2 + j;
      }
    }
    EmitHolds(entries);
    PrintedParametersParse(SectionOf(Emit(entries)), config);
    PrintedIsSingleLine(OrNothing(config));
    forall p | p in Emit(entries) ensures IsPair(p) {
      var i :| 0 <= i < |entries| && entries[i] == Entry(p.0, Some(p.1));
      assert SingleLine(entries[i].value);
    }
    RenderRoundTrip(Emit(entries));
  }

  // The whole request.

  datatype Peer = Peer(
    publicKey: string, preSharedKey: string, endpoint: Option<string>, keepAlive: int, allowedIps: seq<string>)

  datatype Device = Device(
    secretKey: string, listenPort: Option<int>, asec: Option<ASecConfig>, peers: seq<Peer>)

  const DEFAULT_ROUTES := ["0.0.0.0/0", "::0/0"]

  function Routes(p: Peer): seq<string> {
    if |p.allowedIps| > 0 then p.allowedIps else DEFAULT_ROUTES
  }

  function AllowedPairs(ips: seq<string>): seq<Pair> {
    if ips == [] then [] else [("allowed_ip", ips[0])] + AllowedPairs(ips[1..])
  }

  function PeerEntries(p: Peer): seq<Entry> {
    [Entry("persistent_keepalive_interval", Some(PrintInt(p.keepAlive))),
     Entry("preshared_key", Some(p.preSharedKey)),
     Entry("endpoint", p.endpoint)]
  }

  /** The lines of a peer after its public key. */
  function PeerBody(p: Peer): seq<Pair> {
    Emit(PeerEntries(p)) + AllowedPairs(Routes(p))
  }

  function PeersPairs(peers: seq<Peer>): seq<Pair> {
    if peers == [] then []
    else [("public_key", peers[0].publicKey)] + PeerBody(peers[0]) + PeersPairs(peers[1..])
  }

  function DevicePairs(d: Device): seq<Pair> {
    Emit(DeviceEntries(d.secretKey, d.listenPort, d.asec)) + PeersPairs(d.peers)
  }

  // A reader of the protocol: device keys up to the first public_key, then one block per public_key.

  function Before(pairs: seq<Pair>): seq<Pair> {
    if pairs == [] || pairs[0].0 == "public_key" then [] else [pairs[0]] + Before(pairs[1..])
  }

  function From(pairs: seq<Pair>): (rest: seq<Pair>)
    ensures |rest| <= |pairs|
    ensures rest != [] ==> rest[0].0 == "public_key"
  {
    if pairs == [] || pairs[0].0 == "public_key" then pairs else From(pairs[1..])
  }

  function AllowedOf(pairs: seq<Pair>): seq<string> {
    if pairs == [] then []
    else (if pairs[0].0 == "allowed_ip" then [pairs[0].1] else []) + AllowedOf(pairs[1..])
  }

  function ReadPeer(publicKey: string, body: seq<Pair>): Option<Peer> {
    var section := SectionOf(body);
    if "preshared_key" !in section || "persistent_keepalive_interval" !in section then None
    else
      var keepAlive := ParseGoInt(section["persistent_keepalive_interval"]);
      if keepAlive == None then None
      else
        var endpoint := if "endpoint" in section then Some(section["endpoint"]) else None;
        Some(Peer(publicKey, section["preshared_key"], endpoint, keepAlive.value, AllowedOf(body)))
  }

  function ReadPeers(pairs: seq<Pair>): Option<seq<Peer>>
    requires pairs != [] ==> pairs[0].0 == "public_key"
    decreases |pairs|
  {
    if pairs == [] then Some([])
    else
      var peer, rest := ReadPeer(pairs[0].1, Before(pairs[1..])), ReadPeers(From(pairs[1..]));
      if peer.Some? && rest.Some? then Some([peer.value] + rest.value) else None
  }

  ghost function ReadDevice(section: Keys, peers: seq<Peer>): Option<Device> {
    if "private_key" !in section || !Returns(section, Assembled(section)) then None
    else if "listen_port" !in section then Some(Device(section["private_key"], None, Assembled(section), peers))
    else
      var port := ParseGoInt(section["listen_port"]);
      if port == None then None else Some(Device(section["private_key"], port, Assembled(section), peers))
  }

  /** What a request text says, if it says anything. */
  ghost function ReadRequest(text: string): Option<Device> {
    match ReadPairs(text)
    case None => None
    case Some(pairs) =>
      match ReadPeers(From(pairs))
      case None => None
      case Some(peers) => ReadDevice(SectionOf(Before(pairs)), peers)
  }

  predicate PeerPrintable(p: Peer) {
    && '\n' !in p.publicKey && '\n' !in p.preSharedKey && SingleLine(p.endpoint) && IsInt64(p.keepAlive)
    && forall ip <- p.allowedIps :: '\n' !in ip
  }

  /** Field values without line ends, int64 numbers, and parameters ParseASecConfig can return. */
  ghost predicate Printable(d: Device) {
    && '\n' !in d.secretKey && Int64(d.listenPort)
    && (d.asec.Some? ==> Canonical(d.asec.value))
    && forall p <- d.peers :: PeerPrintable(p)
  }

  function WithRoutes(p: Peer): Peer {
    p.(allowedIps := Routes(p))
  }

  function AllWithRoutes(peers: seq<Peer>): seq<Peer> {
    if peers == [] then [] else [WithRoutes(peers[0])] + AllWithRoutes(peers[1..])
  }

  // Proof that the reader recovers the device.

  ghost predicate NoPublicKey(pairs: seq<Pair>) {
    forall p <- pairs :: p.0 != "public_key"
  }

  lemma {:induction false} CutAtPublicKey(a: seq<Pair>, b: seq<Pair>)
    requires NoPublicKey(a) && (b == [] || b[0].0 == "public_key")
    ensures Before(a + b) == a && From(a + b) == b
  {
    if a == [] {
      assert a + b == b;
    } else {
      assert (a + b)[1..] == a[1..] + b;
      CutAtPublicKey(a[1..], b);
    }
  }

  lemma {:induction false} AllowedFacts(ips: seq<string>)
    ensures AllowedOf(AllowedPairs(ips)) == ips
    ensures forall p <- AllowedPairs(ips) :: p.0 == "allowed_ip" && p.1 in ips
  {
    if ips != [] {
      AllowedFacts(ips[1..]);
      assert AllowedPairs(ips)[1..] == AllowedPairs(ips[1..]);
    }
  }

  lemma {:induction false} AllowedConcat(a: seq<Pair>, b: seq<Pair>)
    requires forall p <- a :: p.0 != "allowed_ip"
    ensures AllowedOf(a + b) == AllowedOf(b)
  {
    if a == [] {
      assert a + b == b;
    } else {
      assert (a + b)[1..] == a[1..] + b;
      AllowedConcat(a[1..], b);
    }
  }

  /** Pairs under a key of their own do not disturb the section built from the others. */
  lemma {:induction false} SectionConcat(a: seq<Pair>, b: seq<Pair>, key: string)
    requires (forall p <- a :: p.0 != key) && (forall p <- b :: p.0 == key)
    ensures forall k :: k != key ==> (k in SectionOf(a + b) <==> k in SectionOf(a))
    ensures forall k :: k != key && k in SectionOf(a) ==> SectionOf(a + b)[k] == SectionOf(a)[k]
  {
    if a == [] {
      assert a + b == b;
      SectionOfOneKey(b, key);
    } else {
      assert (a + b)[1..] == a[1..] + b;
      SectionConcat(a[1..], b, key);
    }
  }

  lemma {:induction false} SectionOfOneKey(b: seq<Pair>, key: string)
    requires forall p <- b :: p.0 == key
    ensures forall k <- SectionOf(b) :: k == key
  {
    if b != [] {
      SectionOfOneKey(b[1..], key);
    }
  }

  lemma PeerKeys()
    ensures "persistent_keepalive_interval" != "preshared_key"
    ensures "persistent_keepalive_interval" != "endpoint" && "preshared_key" != "endpoint"
    ensures "persistent_keepalive_interval" != "allowed_ip" && "preshared_key" != "allowed_ip"
    ensures "endpoint" != "allowed_ip"
    ensures "persistent_keepalive_interval" != "public_key" && "preshared_key" != "public_key"
    ensures "endpoint" != "public_key" && "allowed_ip" != "public_key"
  {
    assert "persistent_keepalive_interval"[1] == 'e' && "preshared_key"[1] == 'r' && "public_key"[1] == 'u';
    assert "endpoint"[0] == 'e' && "allowed_ip"[0] == 'a' && "public_key"[0] == 'p' && "preshared_key"[0] == 'p';
    assert "persistent_keepalive_interval"[0] == 'p';
  }

  lemma PeerEntriesDistinct(p: Peer)
    ensures DistinctKeys(PeerEntries(p))
    ensures forall e <- PeerEntries(p) :: e.key != "allowed_ip" && e.key != "public_key"
  {
    PeerKeys();
  }

  lemma PeerEntriesEmit(p: Peer)
    ensures forall q <- Emit(PeerEntries(p)) :: q.0 != "allowed_ip" && q.0 != "public_key"
    ensures HoldsAll(SectionOf(Emit(PeerEntries(p))), PeerEntries(p))
  {
    PeerEntriesDistinct(p);
    var entries := PeerEntries(p);
    EmitHolds(entries);
    forall q | q in Emit(entries) ensures q.0 != "allowed_ip" && q.0 != "public_key" {
      var i :| 0 <= i < |entries| && entries[i] == Entry(q.0, Some(q.1));
      assert entries[i] in entries;
    }
  }

  lemma PeerBodyKeys(p: Peer)
    ensures NoPublicKey(PeerBody(p)) && AllowedOf(PeerBody(p)) == Routes(p)
    ensures HoldsAll(SectionOf(PeerBody(p)), PeerEntries(p))
  {
    PeerKeys();
    PeerEntriesEmit(p);
    PeerEntriesDistinct(p);
    var a, b := Emit(PeerEntries(p)), AllowedPairs(Routes(p));
    AllowedFacts(Routes(p));
    AllowedConcat(a, b);
    SectionConcat(a, b, "allowed_ip");
    forall i | 0 <= i < 3 ensures Holds(SectionOf(a + b), PeerEntries(p)[i]) {
      assert PeerEntries(p)[i] in PeerEntries(p);
      assert Holds(SectionOf(a), PeerEntries(p)[i]);
    }
  }

  lemma PeerBodyReads(p: Peer)
    requires PeerPrintable(p)
    ensures ReadPeer(p.publicKey, PeerBody(p)) == Some(WithRoutes(p))
  {
    PeerBodyKeys(p);
    PeerSectionReads(p, SectionOf(PeerBody(p)));
    GoIntRoundTrip(p.keepAlive);
  }

  lemma PeerSectionReads(p: Peer, section: Keys)
    requires HoldsAll(section, PeerEntries(p))
    ensures Holds(section, Entry("persistent_keepalive_interval", Some(PrintInt(p.keepAlive))))
    ensures Holds(section, Entry("preshared_key", Some(p.preSharedKey)))
    ensures Holds(section, Entry("endpoint", p.endpoint))
  {
    var entries := PeerEntries(p);
    assert Holds(section, entries[0]) && Holds(section, entries[1]) && Holds(section, entries[2]);
  }

  lemma PeerBlock(p: Peer, rest: seq<Pair>)
    requires PeerPrintable(p) && (rest == [] || rest[0].0 == "public_key")
    ensures var pairs := [("public_key", p.publicKey)] + PeerBody(p) + rest;
            && pairs[0] == ("public_key", p.publicKey)
            && ReadPeer(p.publicKey, Before(pairs[1..])) == Some(WithRoutes(p))
            && From(pairs[1..]) == rest
  {
    PeerBodyReads(p);
    PeerBodyKeys(p);
    CutAtPublicKey(PeerBody(p), rest);
    var pairs := [("public_key", p.publicKey)] + PeerBody(p) + rest;
    assert pairs[1..] == PeerBody(p) + rest;
  }

  lemma {:induction false} PeersRead(peers: seq<Peer>)
    requires forall p <- peers :: PeerPrintable(p)
    ensures PeersPairs(peers) != [] ==> PeersPairs(peers)[0].0 == "public_key"
    ensures ReadPeers(PeersPairs(peers)) == Some(AllWithRoutes(peers))
  {
    if peers != [] {
      PeersRead(peers[1..]);
      PeerBlock(peers[0], PeersPairs(peers[1..]));
    }
  }

  lemma ShortPeerKeysAreKeys()
    ensures IsKey("public_key") && IsKey("endpoint") && IsKey("allowed_ip") && IsKey("preshared_key")
  {
  }

  lemma KeepAliveIsKey()
    ensures IsKey("persistent_keepalive_interval")
  {
  }

  lemma PeerKeysAreKeys()
    ensures IsKey("public_key") && IsKey("persistent_keepalive_interval") && IsKey("preshared_key")
    ensures IsKey("endpoint") && IsKey("allowed_ip")
  {
    ShortPeerKeysAreKeys();
    KeepAliveIsKey();
  }

  lemma RoutesAreSingleLine(p: Peer)
    requires PeerPrintable(p)
    ensures forall ip <- Routes(p) :: '\n' !in ip
  {
  }

  lemma PeerBodyIsPairs(p: Peer)
    requires PeerPrintable(p)
    ensures forall q <- PeerBody(p) :: IsPair(q)
  {
    PeerKeysAreKeys();
    PeerEntriesDistinct(p);
    RoutesAreSingleLine(p);
    IntsAreSingleLine();
    var entries := PeerEntries(p);
    EmitHolds(entries);
    AllowedFacts(Routes(p));
    assert SingleLine(PrintedInt(Some(p.keepAlive)));
    forall q | q in Emit(entries) ensures IsPair(q) {
      var i :| 0 <= i < |entries| && entries[i] == Entry(q.0, Some(q.1));
      assert i == 0 || i == 1 || i == 2;
    }
  }

  lemma {:induction false} PeersArePairs(peers: seq<Peer>)
    requires forall p <- peers :: PeerPrintable(p)
    ensures forall q <- PeersPairs(peers) :: IsPair(q)
  {
    if peers != [] {
      PeerKeysAreKeys();
      PeerBodyIsPairs(peers[0]);
      PeersArePairs(peers[1..]);
    }
  }

  lemma DeviceEntriesEmit(d: Device)
    requires Printable(d)
    ensures var entries := DeviceEntries(d.secretKey, d.listenPort, d.asec);
            && (forall q <- Emit(entries) :: IsPair(q)) && NoPublicKey(Emit(entries))
            && HoldsAll(SectionOf(Emit(entries)), entries)
  {
    var entries := DeviceEntries(d.secretKey, d.listenPort, d.asec);
    DevicePlaces(d.secretKey, d.listenPort, d.asec);
    DeviceKeysDistinct(d.secretKey, d.listenPort, d.asec);
    DeviceKeysAreKeys(d.secretKey, d.listenPort, d.asec);
    EmitHolds(entries);
    PrintedIsSingleLine(OrNothing(d.asec));
    IntsAreSingleLine();
    forall q | q in Emit(entries) ensures IsPair(q) && q.0 != "public_key" {
      var i :| 0 <= i < |entries| && entries[i] == Entry(q.0, Some(q.1));
      assert entries[i] in entries;
      if i >= 2 {
        assert entries[i] == AwgEntries(OrNothing(d.asec))[i - 2];
      }
    }
  }

  lemma DeviceSectionReads(d: Device, section: Keys)
    requires Printable(d) && HoldsAll(section, DeviceEntries(d.secretKey, d.listenPort, d.asec))
    ensures Returns(section, d.asec)
    ensures "private_key" in section && section["private_key"] == d.secretKey
    ensures Holds(section, Entry("listen_port", PrintedInt(d.listenPort)))
  {
    var entries := DeviceEntries(d.secretKey, d.listenPort, d.asec);
    var awg := AwgEntries(OrNothing(d.asec));
    assert Holds(section, entries[0]) && Holds(section, entries[1]);
    forall i | 0 <= i < |awg| ensures Holds(section, awg[i]) {
      assert awg[i] == entries[2 + i];
    }
    PrintedParametersParse(section, d.asec);
  }

  /**
   The request text says exactly the device it was printed from: the same key, port and
   parameters, and the same peers in the same order with their own allowed IPs, an empty
   list read as the two default routes.
   */
  lemma RequestRoundTrip(d: Device)
    requires Printable(d)
    ensures ReadRequest(Render(DevicePairs(d))) == Some(d.(peers := AllWithRoutes(d.peers)))
  {
    var a := Emit(DeviceEntries(d.secretKey, d.listenPort, d.asec));
    var b := PeersPairs(d.peers);
    DeviceEntriesEmit(d);
    PeersArePairs(d.peers);
    RenderRoundTrip(a + b);
    PeersRead(d.peers);
    CutAtPublicKey(a, b);
    DeviceReads(d, SectionOf(a), AllWithRoutes(d.peers));
  }

  lemma {:induction false} RoutesAt(peers: seq<Peer>, i: nat)
    requires i < |peers|
    ensures |AllWithRoutes(peers)| == |peers| && AllWithRoutes(peers)[i] == WithRoutes(peers[i])
  {
    if i > 0 {
      RoutesAt(peers[1..], i - 1);
    } else if |peers| > 1 {
      RoutesAt(peers[1..], 0);
    }
  }

  /** In the request a peer has its own allowed IPs, or all of IPv4 and IPv6 if its list is empty; nothing else changes. */
  lemma RoutesOfPeer(d: Device, i: nat)
    requires Printable(d) && i < |d.peers|
    ensures var read := ReadRequest(Render(DevicePairs(d)));
            && read.Some? && |read.value.peers| == |d.peers|
            && read.value.peers[i].allowedIps ==
                 (if d.peers[i].allowedIps == [] then ["0.0.0.0/0", "::0/0"] else d.peers[i].allowedIps)
            && read.value.peers[i].(allowedIps := d.peers[i].allowedIps) == d.peers[i]
  {
    RequestRoundTrip(d);
    RoutesAt(d.peers, i);
  }

  lemma DeviceReads(d: Device, section: Keys, peers: seq<Peer>)
    requires Printable(d) && HoldsAll(section, DeviceEntries(d.secretKey, d.listenPort, d.asec))
    ensures ReadDevice(section, peers) == Some(d.(peers := peers))
  {
    DeviceSectionReads(d, section);
    if d.listenPort.Some? {
      GoIntRoundTrip(d.listenPort.value);
    }
  }

  // CreateIPCRequest itself.

  /** fmt.Fprintf of one "key=value" line. */
  function Put(buffer: string, key: string, value: string): string {
    buffer + key + "=" + value + "\n"
  }

  function PutEntry(buffer: string, e: Entry): string {
    if e.value.Some? then Put(buffer, e.key, e.value.value) else buffer
  }

  function PutAll(buffer: string, entries: seq<Entry>): string
    decreases |entries|
  {
    if entries == [] then buffer else PutAll(PutEntry(buffer, entries[0]), entries[1..])
  }

  /** Printing optional lines one after the other appends the rendered entries. */
  lemma {:induction false} PutAllRenders(buffer: string, entries: seq<Entry>)
    ensures PutAll(buffer, entries) == buffer + Render(Emit(entries))
    decreases |entries|
  {
    if entries != [] {
      var e, rest := entries[0], entries[1..];
      PutAllRenders(PutEntry(buffer, e), rest);
      if e.value.Some? {
        var pair := (e.key, e.value.value);
        assert Emit(entries) == [pair] + Emit(rest);
        RenderConcat([pair], Emit(rest));
        RenderOne(pair);
      } else {
        assert Emit(entries) == Emit(rest);
      }
    }
  }

  lemma RenderOne(p: Pair)
    ensures Render([p]) == p.0 + "=" + p.1 + "\n"
  {
    assert [p][1..] == [];
  }

  lemma PutThree(buffer: string, a: Entry, b: Entry, c: Entry)
    ensures PutEntry(PutEntry(PutEntry(buffer, a), b), c) == buffer + Render(Emit([a, b, c]))
  {
    PutAllRenders(buffer, [a, b, c]);
    assert [a, b, c][1..] == [b, c];
    assert [b, c][1..] == [c];
    assert [c][1..] == [];
    assert PutAll(PutEntry(PutEntry(buffer, a), b), [c]) == PutEntry(PutEntry(PutEntry(buffer, a), b), c);
  }

  lemma PutFour(buffer: string, a: Entry, b: Entry, c: Entry, d: Entry)
    ensures PutEntry(PutEntry(PutEntry(PutEntry(buffer, a), b), c), d) == buffer + Render(Emit([a, b, c, d]))
  {
    PutThree(PutEntry(buffer, a), b, c, d);
    PutFirst(buffer, a, [b, c, d]);
    assert [a] + [b, c, d] == [a, b, c, d];
  }

  lemma PutFirst(buffer: string, a: Entry, rest: seq<Entry>)
    ensures PutEntry(buffer, a) + Render(Emit(rest)) == buffer + Render(Emit([a] + rest))
  {
    PutAllRenders(buffer, [a] + rest);
    PutAllRenders(PutEntry(buffer, a), rest);
    assert ([a] + rest)[1..] == rest;
  }

  method PrintJunk(buffer: string, j: Junk) returns (text: string)
    ensures text == buffer + Render(Emit(JunkEntries(j)))
  {
    text := buffer;
    if j.jc.Some? {
      text := Put(text, "jc", PrintInt(j.jc.value));
    }
    if j.jmin.Some? {
      text := Put(text, "jmin", PrintInt(j.jmin.value));
    }
    if j.jmax.Some? {
      text := Put(text, "jmax", PrintInt(j.jmax.value));
    }
    ghost var e := JunkEntries(j);
    PutThree(buffer, e[0], e[1], e[2]);
  }

  method PrintSizes(buffer: string, s: Sizes) returns (text: string)
    ensures text == buffer + Render(Emit(SizesEntries(s)))
  {
    text := buffer;
    if s.s1.Some? {
      text := Put(text, "s1", PrintInt(s.s1.value));
    }
    if s.s2.Some? {
      text := Put(text, "s2", PrintInt(s.s2.value));
    }
    if s.s3.Some? {
      text := Put(text, "s3", PrintInt(s.s3.value));
    }
    if s.s4.Some? {
      text := Put(text, "s4", PrintInt(s.s4.value));
    }
    ghost var e := SizesEntries(s);
    PutFour(buffer, e[0], e[1], e[2], e[3]);
  }

  method PrintHeaders(buffer: string, h: Headers) returns (text: string)
    ensures text == buffer + Render(Emit(HeadersEntries(h)))
  {
    text := buffer;
    if h.h1.Some? {
      text := Put(text, "h1", FormatRange(h.h1.value));
    }
    if h.h2.Some? {
      text := Put(text, "h2", FormatRange(h.h2.value));
    }
    if h.h3.Some? {
      text := Put(text, "h3", FormatRange(h.h3.value));
    }
    if h.h4.Some? {
      text := Put(text, "h4", FormatRange(h.h4.value));
    }
    ghost var e := HeadersEntries(h);
    PutFour(buffer, e[0], e[1], e[2], e[3]);
  }

  method PrintPackets(buffer: string, p: Packets) returns (text: string)
    ensures text == buffer + Render(Emit(PacketsEntries(p)))
  {
    text := buffer;
    if p.i1.Some? {
      text := Put(text, "i1", p.i1.value);
    }
    ghost var e := PacketsEntries(p);
    ghost var first := text;
    assert first == PutEntry(buffer, e[0]);
    if p.i2.Some? {
      text := Put(text, "i2", p.i2.value);
    }
    if p.i3.Some? {
      text := Put(text, "i3", p.i3.value);
    }
    assert text == PutEntry(PutEntry(first, e[1]), e[2]);
    if p.i4.Some? {
      text := Put(text, "i4", p.i4.value);
    }
    if p.i5.Some? {
      text := Put(text, "i5", p.i5.value);
    }
    PutFour(first, e[1], e[2], e[3], e[4]);
    PutFirst(buffer, e[0], [e[1], e[2], e[3], e[4]]);
    assert [e[0]] + [e[1], e[2], e[3], e[4]] == e;
  }

  /** The parameter lines, one optional Fprintf after the other. */
  method PrintParameters(buffer: string, c: ASecConfig) returns (text: string)
    ensures text == buffer + Render(Emit(AwgEntries(c)))
  {
    var junk := PrintJunk(buffer, c.junk);
    var sizes := PrintSizes(junk, c.sizes);
    var headers := PrintHeaders(sizes, c.headers);
    text := PrintPackets(headers, c.packets);
    PrintedInTurn(buffer, JunkEntries(c.junk), SizesEntries(c.sizes), HeadersEntries(c.headers),
                  PacketsEntries(c.packets), junk, sizes, headers, text);
  }

  lemma PrintedInTurn(buffer: string, a: seq<Entry>, b: seq<Entry>, c: seq<Entry>, d: seq<Entry>,
                      ta: string, tb: string, tc: string, td: string)
    requires ta == buffer + Render(Emit(a)) && tb == ta + Render(Emit(b))
    requires tc == tb + Render(Emit(c)) && td == tc + Render(Emit(d))
    ensures td == buffer + Render(Emit(a + b + c + d))
  {
    AppendGroup(buffer, a, b);
    var ab := a + b;
    AppendGroup(buffer, ab, c);
    var abc := ab + c;
    AppendGroup(buffer, abc, d);
  }

  lemma AppendGroup(buffer: string, a: seq<Entry>, b: seq<Entry>)
    ensures buffer + Render(Emit(a)) + Render(Emit(b)) == buffer + Render(Emit(a + b))
  {
    RenderEntries(a, b);
  }

  lemma RenderEntries(a: seq<Entry>, b: seq<Entry>)
    ensures Render(Emit(a + b)) == Render(Emit(a)) + Render(Emit(b))
  {
    EmitConcat(a, b);
    RenderConcat(Emit(a), Emit(b));
  }

  lemma EmitFirst(e: Entry, rest: seq<Entry>)
    ensures Emit([e] + rest) == Emit([e]) + Emit(rest)
  {
    assert ([e] + rest)[1..] == rest;
    assert [e][1..] == [];
  }

  lemma EmitOneMore(e: Entry, rest: seq<Entry>, whole: seq<Entry>, tail: seq<Pair>)
    requires Emit(whole) == Emit(rest) + tail
    ensures Emit([e] + whole) == Emit([e] + rest) + tail
  {
    EmitFirst(e, rest);
    EmitFirst(e, whole);
    InFront(Emit([e]), Emit(rest), tail);
  }

  lemma InFront(head: seq<Pair>, a: seq<Pair>, b: seq<Pair>)
    ensures head + (a + b) == head + a + b
  {
  }

  lemma {:induction false} EmitConcat(a: seq<Entry>, b: seq<Entry>)
    ensures Emit(a + b) == Emit(a) + Emit(b)
  {
    if a == [] {
      assert a + b == b;
    } else {
      var rest := a[1..];
      EmitConcat(rest, b);
      EmitOneMore(a[0], rest, rest + b, Emit(b));
      assert a == [a[0]] + rest;
      assert a + b == [a[0]] + (rest + b);
    }
  }

  lemma {:induction false} PeersSnoc(peers: seq<Peer>, p: Peer)
    ensures PeersPairs(peers + [p]) == PeersPairs(peers) + [("public_key", p.publicKey)] + PeerBody(p)
  {
    if peers == [] {
      assert [] + [p] == [p];
      assert [p][1..] == [];
    } else {
      assert (peers + [p])[1..] == peers[1..] + [p];
      PeersSnoc(peers[1..], p);
    }
  }

  lemma {:induction false} AllowedSnoc(ips: seq<string>, ip: string)
    ensures AllowedPairs(ips + [ip]) == AllowedPairs(ips) + [("allowed_ip", ip)]
  {
    if ips == [] {
      assert [] + [ip] == [ip];
      assert [ip][1..] == [];
    } else {
      assert (ips + [ip])[1..] == ips[1..] + [ip];
      AllowedSnoc(ips[1..], ip);
    }
  }

  /** The two lines for a peer without allowed IPs. */
  method PrintDefaultRoutes() returns (text: string)
    ensures text == Render(AllowedPairs(DEFAULT_ROUTES))
    ensures text == "allowed_ip=0.0.0.0/0\nallowed_ip=::0/0\n"
  {
    DefaultRoutesPrinted();
    text := "allowed_ip=" + DEFAULT_ROUTES[0] + "\n" + "allowed_ip=" + DEFAULT_ROUTES[1] + "\n";
  }

  method PrintRoutes(p: Peer) returns (text: string)
    ensures text == Render(AllowedPairs(Routes(p)))
    ensures p.allowedIps == [] ==> text == "allowed_ip=0.0.0.0/0\nallowed_ip=::0/0\n"
  {
    text := "";
    if |p.allowedIps| > 0 {
      for i := 0 to |p.allowedIps|
        invariant text == Render(AllowedPairs(p.allowedIps[..i]))
      {
        var ip := p.allowedIps[i];
        assert p.allowedIps[..i + 1] == p.allowedIps[..i] + [ip];
        AllowedSnoc(p.allowedIps[..i], ip);
        RenderConcat(AllowedPairs(p.allowedIps[..i]), [("allowed_ip", ip)]);
        RenderOne(("allowed_ip", ip));
        text := text + ("allowed_ip" + "=" + ip + "\n");
      }
      assert p.allowedIps[..|p.allowedIps|] == p.allowedIps;
    } else {
      text := PrintDefaultRoutes();
    }
  }

  lemma DefaultRoutesPrinted()
    ensures Render(AllowedPairs(DEFAULT_ROUTES))
            == "allowed_ip=" + DEFAULT_ROUTES[0] + "\n" + "allowed_ip=" + DEFAULT_ROUTES[1] + "\n"
  {
    TwoRoutesPrinted(DEFAULT_ROUTES[0], DEFAULT_ROUTES[1]);
    assert DEFAULT_ROUTES == [DEFAULT_ROUTES[0], DEFAULT_ROUTES[1]];
  }

  lemma TwoRoutesPrinted(a: string, b: string)
    ensures Render(AllowedPairs([a, b])) == "allowed_ip=" + a + "\n" + "allowed_ip=" + b + "\n"
  {
    AllowedSnoc([a], b);
    AllowedSnoc([], a);
    assert [a] + [b] == [a, b] && [] + [a] == [a];
    var pa, pb := ("allowed_ip", a), ("allowed_ip", b);
    assert AllowedPairs([a, b]) == [pa] + [pb];
    RenderConcat([pa], [pb]);
    RenderOne(pa);
    RenderOne(pb);
    assert "allowed_ip" + "=" == "allowed_ip=";
  }

  /** The lines of one peer. */
  method PrintPeer(p: Peer) returns (text: string)
    ensures text == Render([("public_key", p.publicKey)] + PeerBody(p))
  {
    text := Put("", "public_key", p.publicKey);
    text := Put(text, "persistent_keepalive_interval", PrintInt(p.keepAlive));
    text := Put(text, "preshared_key", p.preSharedKey);
    if p.endpoint.Some? {
      text := Put(text, "endpoint", p.endpoint.value);
    }
    var routes := PrintRoutes(p);
    ghost var e := PeerEntries(p);
    PeerText(("public_key", p.publicKey), e[0], e[1], e[2], AllowedPairs(Routes(p)));
    text := text + routes;
  }

  lemma PeerText(first: Pair, a: Entry, b: Entry, c: Entry, routes: seq<Pair>)
    ensures PutEntry(PutEntry(PutEntry(Put("", first.0, first.1), a), b), c) + Render(routes)
            == Render([first] + (Emit([a, b, c]) + routes))
  {
    RenderOne(first);
    PutThree(Put("", first.0, first.1), a, b, c);
    PeerInPieces(first, Emit([a, b, c]), routes);
  }

  lemma PeerInPieces(first: Pair, a: seq<Pair>, b: seq<Pair>)
    ensures Render([first] + (a + b)) == Render([first]) + Render(a) + Render(b)
  {
    RenderConcat(a, b);
    RenderConcat([first], a + b);
  }

  /** Everything before the peers. */
  method PrintDevice(d: Device) returns (text: string)
    ensures text == Render(Emit(DeviceEntries(d.secretKey, d.listenPort, d.asec)))
  {
    ghost var head := [Entry("private_key", Some(d.secretKey)), Entry("listen_port", PrintedInt(d.listenPort))];
    text := Put("", "private_key", d.secretKey);
    PutAllRenders("", []);
    PutFirst("", head[0], [head[1]]);
    PutFirst("", head[1], []);
    if d.listenPort.Some? {
      text := Put(text, "listen_port", PrintInt(d.listenPort.value));
    }
    HeadPrinted(head[0], head[1]);
    RenderEntries(head, AwgEntries(OrNothing(d.asec)));
    if d.asec.Some? {
      text := PrintParameters(text, d.asec.value);
    } else {
      NothingPrinted();
    }
  }

  lemma HeadPrinted(a: Entry, b: Entry)
    ensures PutEntry(PutEntry("", a), b) == Render(Emit([a, b]))
  {
    PutAllRenders("", [a, b]);
    assert [b][1..] == [] && PutAll(PutEntry("", a), [b]) == PutEntry(PutEntry("", a), b);
    assert [a, b][1..] == [b];
  }

  lemma NothingPrinted()
    ensures Emit(AwgEntries(NO_PARAMETERS)) == []
  {
    EmitNothing(AwgEntries(NO_PARAMETERS));
  }

  lemma {:induction false} EmitNothing(entries: seq<Entry>)
    requires forall i | 0 <= i < |entries| :: entries[i].value == None
    ensures Emit(entries) == []
  {
    if entries != [] {
      EmitNothing(entries[1..]);
    }
  }

  lemma Regroup(a: seq<Pair>, b: seq<Pair>, c: seq<Pair>, d: seq<Pair>)
    ensures a + (b + c + d) == (a + b) + (c + d)
  {
  }

  lemma OneMorePeer(device: seq<Pair>, peers: seq<Peer>, p: Peer)
    ensures Render(device + PeersPairs(peers + [p]))
            == Render(device + PeersPairs(peers)) + Render([("public_key", p.publicKey)] + PeerBody(p))
  {
    PeersSnoc(peers, p);
    var before, block := device + PeersPairs(peers), [("public_key", p.publicKey)] + PeerBody(p);
    RenderConcat(before, block);
    Regroup(device, PeersPairs(peers), [("public_key", p.publicKey)], PeerBody(p));
  }

  /** CreateIPCRequest prints the device, and the text says the device it was given. */
  method CreateIPCRequest(d: Device) returns (request: string)
    ensures request == Render(DevicePairs(d))
    ensures Printable(d) ==> ReadRequest(request) == Some(d.(peers := AllWithRoutes(d.peers)))
  {
    request := PrintDevice(d);
    ghost var device := Emit(DeviceEntries(d.secretKey, d.listenPort, d.asec));
    assert device + PeersPairs([]) == device;
    for i := 0 to |d.peers|
      invariant request == Render(device + PeersPairs(d.peers[..i]))
    {
      var text := PrintPeer(d.peers[i]);
      assert d.peers[..i + 1] == d.peers[..i] + [d.peers[i]];
      OneMorePeer(device, d.peers[..i], d.peers[i]);
      request := request + text;
    }
    assert d.peers[..|d.peers|] == d.peers;
    if Printable(d) {
      RequestRoundTrip(d);
    }
  }
}
