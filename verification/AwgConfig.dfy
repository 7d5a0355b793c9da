/** The AmneziaWG parameters of awg_config.go: reading, validating and printing them. */
module AwgConfig {
  import opened Base
  import opened Text
  import opened Decimal

  // Header ranges.

  datatype Range = Range(min: nat, max: nat)

  datatype RangeError = EmptyValue | BadFormat | BadNumber | Inverted

  predicate IsUint32Range(r: Range) {
    r.min <= r.max < UINT32_LIMIT
  }

  /** parseMagicHeaderInterval. */
  function ParseRange(value: string): (r: Result<Range, RangeError>)
    ensures r.Ok? ==> IsUint32Range(r.value)
  {
    var trimmed := Trim(Go, value);
    if trimmed == "" then Err(EmptyValue)
    else
      var parts := Split(trimmed, '-');
      if |parts| > 2 || parts[0] == "" then Err(BadFormat)
      else
        var min := ParseUint32(parts[0]);
        if min == None then Err(BadNumber)
        else if |parts| == 1 then Ok(Range(min.value, min.value))
        else if parts[1] == "" then Err(BadFormat)
        else
          var max := ParseUint32(parts[1]);
          if max == None then Err(BadNumber)
          else if min.value > max.value then Err(Inverted)
          else Ok(Range(min.value, max.value))
  }

  /** formatMagicHeaderInterval. */
  function FormatRange(r: Range): string {
    if r.min == r.max then PrintNat(r.min) else PrintNat(r.min) + "-" + PrintNat(r.max)
  }

  lemma PrintedIsTrimmed(n: nat)
    ensures Trimmed(Go, PrintNat(n)) && '-' !in PrintNat(n)
  {
    PrintedDigits(n);
    var s := PrintNat(n);
    assert s[0] in s && s[|s| - 1] in s;
  }

  /** A formatted range of uint32 bounds reads back as itself exactly when it is not inverted. */
  lemma RangeRoundTrip(r: Range)
    requires r.min < UINT32_LIMIT && r.max < UINT32_LIMIT
    ensures ParseRange(FormatRange(r)) == if r.min <= r.max then Ok(r) else Err(Inverted)
  {
    var s := FormatRange(r);
    var a, b := PrintNat(r.min), PrintNat(r.max);
    PrintedIsTrimmed(r.min);
    PrintedIsTrimmed(r.max);
    Uint32RoundTrip(r.min);
    Uint32RoundTrip(r.max);
    SplitWithoutSeparator(a, '-');
    SplitWithoutSeparator(b, '-');
    SplitConcat(a, b, '-');
    assert s != "" && s[0] == a[0] && s[|s| - 1] == (if r.min == r.max then a[|a| - 1] else b[|b| - 1]);
    TrimIsIdentityIff(Go, s);
    assert [a] + [b] == [a, b];
  }

  /** A numeral, or two joined by a dash. */
  ghost predicate IsRangeText(t: string, r: Range) {
    || (r.min == r.max && IsNumeral(t, r.min))
    || exists a, b :: t == a + "-" + b && IsNumeral(a, r.min) && IsNumeral(b, r.max)
  }

  lemma OneNumeral(value: string, n: nat)
    requires IsNumeral(Trim(Go, value), n) && n < UINT32_LIMIT
    ensures ParseRange(value) == Ok(Range(n, n))
  {
    var t := Trim(Go, value);
    NumeralDigits(t, n);
    SplitWithoutSeparator(t, '-');
    Uint32Iff(t, n);
  }

  lemma TwoNumerals(value: string, a: string, b: string, r: Range)
    requires Trim(Go, value) == a + "-" + b && IsNumeral(a, r.min) && IsNumeral(b, r.max)
    requires IsUint32Range(r)
    ensures ParseRange(value) == Ok(r)
  {
    NumeralDigits(a, r.min);
    NumeralDigits(b, r.max);
    SplitWithoutSeparator(a, '-');
    SplitWithoutSeparator(b, '-');
    SplitConcat(a, b, '-');
    assert [a] + [b] == [a, b];
    Uint32Iff(a, r.min);
    Uint32Iff(b, r.max);
  }

  lemma AcceptedText(value: string)
    requires ParseRange(value).Ok?
    ensures IsRangeText(Trim(Go, value), ParseRange(value).value)
  {
    var t := Trim(Go, value);
    var parts := Split(t, '-');
    var r := ParseRange(value).value;
    JoinOfSplit(t, '-');
    Uint32Iff(parts[0], r.min);
    if |parts| == 2 {
      Uint32Iff(parts[1], r.max);
      assert parts[1..] == [parts[1]];
      assert t == parts[0] + "-" + parts[1];
    }
  }

  /**
   The texts parseMagicHeaderInterval accepts, and what it makes of them: a numeral below
   2^32, or two joined by one dash, the first not above the second; spaces around are ignored.
   */
  lemma RangeTextIff(value: string, r: Range)
    ensures ParseRange(value) == Ok(r) <==> r.min <= r.max < 0x1_0000_0000 && IsRangeText(Trim(Go, value), r)
  {
    if ParseRange(value) == Ok(r) {
      AcceptedText(value);
    }
    if IsUint32Range(r) && IsRangeText(Trim(Go, value), r) {
      if r.min == r.max && IsNumeral(Trim(Go, value), r.min) {
        OneNumeral(value, r.min);
      } else {
        var a, b :| Trim(Go, value) == a + "-" + b && IsNumeral(a, r.min) && IsNumeral(b, r.max);
        TwoNumerals(value, a, b, r);
      }
    }
  }

  /** A range of one value prints without a dash, any other with one. */
  lemma DashIff(r: Range)
    ensures '-' in FormatRange(r) <==> r.min != r.max
  {
    PrintedDigits(r.min);
    PrintedDigits(r.max);
  }

  // The parameters.

  datatype Junk = Junk(jc: Option<int>, jmin: Option<int>, jmax: Option<int>)

  datatype Sizes = Sizes(s1: Option<int>, s2: Option<int>, s3: Option<int>, s4: Option<int>)

  datatype Headers = Headers(h1: Option<Range>, h2: Option<Range>, h3: Option<Range>, h4: Option<Range>)

  datatype Packets = Packets(
    i1: Option<string>, i2: Option<string>, i3: Option<string>, i4: Option<string>, i5: Option<string>)

  /** ASecConfigType, with an absent option for every cleared `has` flag or nil field. */
  datatype ASecConfig = ASecConfig(junk: Junk, sizes: Sizes, headers: Headers, packets: Packets)

  const NO_JUNK := Junk(None, None, None)
  const NO_SIZES := Sizes(None, None, None, None)
  const NO_HEADERS := Headers(None, None, None, None)
  const NO_PACKETS := Packets(None, None, None, None, None)
  const NO_PARAMETERS := ASecConfig(NO_JUNK, NO_SIZES, NO_HEADERS, NO_PACKETS)

  datatype AwgError =
    | BadInteger(key: string)
    | BadRange(key: string, cause: RangeError)
    | JcOutOfRange
    | JminAboveJmax
    | JmaxTooLarge
    | PacketSizesCollide(allFour: bool)
    | InvertedHeader
    | HeadersOverlap

  // Validation.

  const MESSAGE_INITIATION_SIZE := 148
  const MESSAGE_RESPONSE_SIZE := 92
  const MESSAGE_COOKIE_REPLY_SIZE := 64
  const MESSAGE_TRANSPORT_SIZE := 32

  function Plus(base: int, junk: Option<int>): Option<int> {
    match junk
    case None => None
    case Some(n) => Some(base + n)
  }

  /** Sizes of the four message types on the wire, where set. */
  function PacketSizes(s: Sizes): seq<Option<int>> {
    [Plus(MESSAGE_INITIATION_SIZE, s.s1), Plus(MESSAGE_RESPONSE_SIZE, s.s2),
     Plus(MESSAGE_COOKIE_REPLY_SIZE, s.s3), Plus(MESSAGE_TRANSPORT_SIZE, s.s4)]
  }

  function OrDefault(r: Option<Range>, default: nat): Range {
    match r
    case None => Range(default, default)
    case Some(set_) => set_
  }

  /** The ranges in force for the four message types, defaults included. */
  function EffectiveRanges(h: Headers): seq<Range> {
    [OrDefault(h.h1, 1), OrDefault(h.h2, 2), OrDefault(h.h3, 3), OrDefault(h.h4, 4)]
  }

  predicate Contains(r: Range, v: int) {
    r.min <= v <= r.max
  }

  /** The ranges, as sets of header values, have no value in common. */
  ghost predicate Disjoint(a: Range, b: Range) {
    forall v: int :: !(Contains(a, v) && Contains(b, v))
  }

  predicate JunkAccepted(j: Junk) {
    && (j.jc.Some? ==> 1 <= j.jc.value <= 128)
    && (j.jmin.Some? && j.jmax.Some? ==> j.jmin.value <= j.jmax.value)
    && (j.jmax.Some? ==> j.jmax.value <= 1280)
  }

  ghost predicate SizesDistinct(sizes: seq<Option<int>>) {
    forall i, j | 0 <= i < j < |sizes| && sizes[i].Some? && sizes[j].Some? :: sizes[i] != sizes[j]
  }

  predicate WellFormed(ranges: seq<Range>) {
    forall i | 0 <= i < |ranges| :: ranges[i].min <= ranges[i].max
  }

  ghost predicate PairwiseDisjoint(ranges: seq<Range>) {
    forall i, j | 0 <= i < j < |ranges| :: Disjoint(ranges[i], ranges[j])
  }

  /** What validation promises, in terms of sizes and sets of header values. */
  ghost predicate Accepted(c: ASecConfig) {
    && JunkAccepted(c.junk)
    && SizesDistinct(PacketSizes(c.sizes))
    && WellFormed(EffectiveRanges(c.headers))
    && PairwiseDisjoint(EffectiveRanges(c.headers))
  }

  predicate Touch(a: Range, b: Range) {
    a.min <= b.max && b.min <= a.max
  }

  /** For well-formed ranges the comparison of bounds decides disjointness. */
  lemma TouchMeansShared(a: Range, b: Range)
    requires a.min <= a.max && b.min <= b.max
    ensures Touch(a, b) <==> !Disjoint(a, b)
  {
    if Touch(a, b) {
      var v := if a.min <= b.min then b.min else a.min;
      assert Contains(a, v) && Contains(b, v);
    }
  }

  /** hasOverlappingHeaderIntervals, for lists of any length. */
  method HasOverlappingRanges(ranges: seq<Range>) returns (overlap: bool)
    ensures overlap <==> exists i, j :: 0 <= i < j < |ranges| && Touch(ranges[i], ranges[j])
    ensures WellFormed(ranges) ==> (overlap <==> !PairwiseDisjoint(ranges))
  {
    for i := 0 to |ranges|
      invariant forall k, j | 0 <= k < i && k < j < |ranges| :: !Touch(ranges[k], ranges[j])
    {
      for j := i + 1 to |ranges|
        invariant forall k | i < k < j :: !Touch(ranges[i], ranges[k])
      {
        var left := ranges[i];
        var right := ranges[j];
        if left.min <= right.max && right.min <= left.max {
          if WellFormed(ranges) {
            TouchMeansShared(left, right);
          }
          return true;
        }
      }
    }
    if WellFormed(ranges) {
      forall i, j | 0 <= i < j < |ranges| ensures Disjoint(ranges[i], ranges[j]) {
        TouchMeansShared(ranges[i], ranges[j]);
      }
    }
    return false;
  }

  /** The nested loop over packet sizes. */
  method HasEqualSizes(sizes: seq<Option<int>>) returns (collision: bool)
    ensures collision <==> !SizesDistinct(sizes)
  {
    for i := 0 to |sizes|
      invariant forall k, j | 0 <= k < i && k < j < |sizes| && sizes[k].Some? && sizes[j].Some? :: sizes[k] != sizes[j]
    {
      if sizes[i] == None {
        continue;
      }
      for j := i + 1 to |sizes|
        invariant forall k | i < k < j && sizes[k].Some? :: sizes[i] != sizes[k]
      {
        if sizes[j] == None {
          continue;
        }
        if sizes[i].value == sizes[j].value {
          return true;
        }
      }
    }
    return false;
  }

  /** collectEffectiveHeaderIntervals. */
  method CollectEffectiveRanges(c: Option<ASecConfig>) returns (ranges: seq<Range>)
    ensures ranges == EffectiveRanges(if c.Some? then c.value.headers else NO_HEADERS)
  {
    ranges := [];
    var h1 := Range(1, 1);
    if c.Some? && c.value.headers.h1.Some? {
      h1 := c.value.headers.h1.value;
    }
    ranges := ranges + [h1];
    var h2 := Range(2, 2);
    if c.Some? && c.value.headers.h2.Some? {
      h2 := c.value.headers.h2.value;
    }
    ranges := ranges + [h2];
    var h3 := Range(3, 3);
    if c.Some? && c.value.headers.h3.Some? {
      h3 := c.value.headers.h3.value;
    }
    ranges := ranges + [h3];
    var h4 := Range(4, 4);
    if c.Some? && c.value.headers.h4.Some? {
      h4 := c.value.headers.h4.value;
    }
    ranges := ranges + [h4];
  }

  /** The error reported for a config that is not accepted, in the order of the checks. */
  ghost function FirstError(c: ASecConfig): (error: Option<AwgError>)
    ensures error == None <==> Accepted(c)
  {
    var junk, ranges := c.junk, EffectiveRanges(c.headers);
    if junk.jc.Some? && !(1 <= junk.jc.value <= 128) then Some(JcOutOfRange)
    else if junk.jmin.Some? && junk.jmax.Some? && junk.jmin.value > junk.jmax.value then Some(JminAboveJmax)
    else if junk.jmax.Some? && junk.jmax.value > 1280 then Some(JmaxTooLarge)
    else if !SizesDistinct(PacketSizes(c.sizes)) then Some(PacketSizesCollide(c.sizes.s3.Some? || c.sizes.s4.Some?))
    else if !WellFormed(ranges) then Some(InvertedHeader)
    else if !PairwiseDisjoint(ranges) then Some(HeadersOverlap)
    else None
  }

  /** The message types, 0 to 3, that a header value stands for. */
  function MessageTypes(c: ASecConfig, v: int): set<nat> {
    set i: nat | i < 4 && Contains(EffectiveRanges(c.headers)[i], v)
  }

  lemma NotBothTypes(c: ASecConfig, i: nat, j: nat, v: int)
    requires PairwiseDisjoint(EffectiveRanges(c.headers)) && i < j < 4
    ensures !(i in MessageTypes(c, v) && j in MessageTypes(c, v))
  {
    assert Disjoint(EffectiveRanges(c.headers)[i], EffectiveRanges(c.headers)[j]);
  }

  lemma AtMostOneType(c: ASecConfig, v: int)
    requires PairwiseDisjoint(EffectiveRanges(c.headers))
    ensures |MessageTypes(c, v)| <= 1
  {
    var types := MessageTypes(c, v);
    if types != {} {
      var i :| i in types;
      forall j | j in types ensures j == i {
        if i < j {
          NotBothTypes(c, i, j, v);
        } else if j < i {
          NotBothTypes(c, j, i, v);
        }
      }
      assert types == {i};
    }
  }

  lemma TwoTypes(c: ASecConfig, i: nat, j: nat, v: int)
    requires i < j < 4 && Contains(EffectiveRanges(c.headers)[i], v) && Contains(EffectiveRanges(c.headers)[j], v)
    ensures |MessageTypes(c, v)| > 1
  {
    var types := MessageTypes(c, v);
    assert i in types && j in types;
    assert j in types - {i} && |types - {i}| == |types| - 1;
  }

  /**
   Validation finds no fault with the headers exactly when no range is inverted and every
   header value stands for at most one message type; given that nothing else is wrong.
   */
  lemma HeadersAreUnambiguous(c: ASecConfig)
    requires JunkAccepted(c.junk) && SizesDistinct(PacketSizes(c.sizes))
    ensures FirstError(c) == None <==>
              WellFormed(EffectiveRanges(c.headers)) && forall v: int :: |MessageTypes(c, v)| <= 1
  {
    var ranges := EffectiveRanges(c.headers);
    if PairwiseDisjoint(ranges) {
      forall v: int ensures |MessageTypes(c, v)| <= 1 {
        AtMostOneType(c, v);
      }
    } else {
      var i, j :| 0 <= i < j < |ranges| && !Disjoint(ranges[i], ranges[j]);
      var v :| Contains(ranges[i], v) && Contains(ranges[j], v);
      TwoTypes(c, i, j, v);
    }
  }

  /** ValidateASecConfig reports the first violation, hence none exactly for an accepted config. */
  method ValidateASecConfig(config: Option<ASecConfig>) returns (error: Option<AwgError>)
    ensures error == if config.Some? then FirstError(config.value) else None
    ensures error == None && config.Some? ==> forall v: int :: |MessageTypes(config.value, v)| <= 1
  {
    if config == None {
      return None;
    }
    var junk := config.value.junk;
    if junk.jc.Some? && (junk.jc.value < 1 || junk.jc.value > 128) {
      return Some(JcOutOfRange);
    }
    if junk.jmin.Some? && junk.jmax.Some? && junk.jmin.value > junk.jmax.value {
      return Some(JminAboveJmax);
    }
    if junk.jmax.Some? && junk.jmax.value > 1280 {
      return Some(JmaxTooLarge);
    }
    var sizes := config.value.sizes;
    var collision := HasEqualSizes(PacketSizes(sizes));
    if collision {
      return Some(PacketSizesCollide(sizes.s3.Some? || sizes.s4.Some?));
    }
    var ranges := CollectEffectiveRanges(config);
    for i := 0 to |ranges|
      invariant forall k | 0 <= k < i :: ranges[k].min <= ranges[k].max
    {
      if ranges[i].min > ranges[i].max {
        return Some(InvertedHeader);
      }
    }
    var overlap := HasOverlappingRanges(ranges);
    if overlap {
      return Some(HeadersOverlap);
    }
    HeadersAreUnambiguous(config.value);
    return None;
  }

  // The constants of the protocol, seen in what is refused.

  function OnlySizes(s: Sizes): ASecConfig {
    ASecConfig(NO_JUNK, s, NO_HEADERS, NO_PACKETS)
  }

  function OnlyHeaders(h: Headers): ASecConfig {
    ASecConfig(NO_JUNK, NO_SIZES, h, NO_PACKETS)
  }

  function OnlyJunk(j: Junk): ASecConfig {
    ASecConfig(j, NO_SIZES, NO_HEADERS, NO_PACKETS)
  }

  /** With only junk parameters set, a config passes exactly within these limits; Jmin alone has none. */
  lemma JunkLimits(jc: int, jmin: int, jmax: int)
    ensures FirstError(OnlyJunk(Junk(Some(jc), None, None))) == None <==> 1 <= jc <= 128
    ensures FirstError(OnlyJunk(Junk(None, Some(jmin), None))) == None
    ensures FirstError(OnlyJunk(Junk(None, None, Some(jmax)))) == None <==> jmax <= 1280
    ensures FirstError(OnlyJunk(Junk(None, Some(jmin), Some(jmax)))) == None <==> jmin <= jmax <= 1280
  {
  }

  /**
   With just two sizes set, a config is refused exactly when they make two message types,
   of 148, 92, 64 and 32 bytes, equally long.
   */
  lemma TwoSizesRefused(x: int, y: int)
    ensures FirstError(OnlySizes(Sizes(Some(x), Some(y), None, None))) != None <==> 148 + x == 92 + y
    ensures FirstError(OnlySizes(Sizes(Some(x), None, Some(y), None))) != None <==> 148 + x == 64 + y
    ensures FirstError(OnlySizes(Sizes(Some(x), None, None, Some(y)))) != None <==> 148 + x == 32 + y
    ensures FirstError(OnlySizes(Sizes(None, Some(x), Some(y), None))) != None <==> 92 + x == 64 + y
    ensures FirstError(OnlySizes(Sizes(None, Some(x), None, Some(y)))) != None <==> 92 + x == 32 + y
    ensures FirstError(OnlySizes(Sizes(None, None, Some(x), Some(y)))) != None <==> 64 + x == 32 + y
  {
    SizesPair(Sizes(Some(x), Some(y), None, None), 0, 1);
    SizesPair(Sizes(Some(x), None, Some(y), None), 0, 2);
    SizesPair(Sizes(Some(x), None, None, Some(y)), 0, 3);
    SizesPair(Sizes(None, Some(x), Some(y), None), 1, 2);
    SizesPair(Sizes(None, Some(x), None, Some(y)), 1, 3);
    SizesPair(Sizes(None, None, Some(x), Some(y)), 2, 3);
  }

  lemma SizesPair(s: Sizes, i: nat, j: nat)
    requires i < j < 4 && PacketSizes(s)[i].Some? && PacketSizes(s)[j].Some?
    requires forall k | 0 <= k < 4 && k != i && k != j :: PacketSizes(s)[k] == None
    ensures SizesDistinct(PacketSizes(s)) <==> PacketSizes(s)[i] != PacketSizes(s)[j]
  {
  }

  lemma FirstHeaderRefused(r: Range)
    requires r.min <= r.max
    ensures FirstError(OnlyHeaders(Headers(Some(r), None, None, None))) == None
            <==> !Contains(r, 2) && !Contains(r, 3) && !Contains(r, 4)
  {
    assert EffectiveRanges(Headers(Some(r), None, None, None)) == [r, Range(2, 2), Range(3, 3), Range(4, 4)];
    FourDisjoint(r, Range(2, 2), Range(3, 3), Range(4, 4));
  }

  lemma SecondHeaderRefused(r: Range)
    requires r.min <= r.max
    ensures FirstError(OnlyHeaders(Headers(None, Some(r), None, None))) == None
            <==> !Contains(r, 1) && !Contains(r, 3) && !Contains(r, 4)
  {
    assert EffectiveRanges(Headers(None, Some(r), None, None)) == [Range(1, 1), r, Range(3, 3), Range(4, 4)];
    FourDisjoint(Range(1, 1), r, Range(3, 3), Range(4, 4));
  }

  lemma ThirdHeaderRefused(r: Range)
    requires r.min <= r.max
    ensures FirstError(OnlyHeaders(Headers(None, None, Some(r), None))) == None
            <==> !Contains(r, 1) && !Contains(r, 2) && !Contains(r, 4)
  {
    assert EffectiveRanges(Headers(None, None, Some(r), None)) == [Range(1, 1), Range(2, 2), r, Range(4, 4)];
    FourDisjoint(Range(1, 1), Range(2, 2), r, Range(4, 4));
  }

  lemma FourthHeaderRefused(r: Range)
    requires r.min <= r.max
    ensures FirstError(OnlyHeaders(Headers(None, None, None, Some(r)))) == None
            <==> !Contains(r, 1) && !Contains(r, 2) && !Contains(r, 3)
  {
    assert EffectiveRanges(Headers(None, None, None, Some(r))) == [Range(1, 1), Range(2, 2), Range(3, 3), r];
    FourDisjoint(Range(1, 1), Range(2, 2), Range(3, 3), r);
  }

  /** With just one header set to a range, a config is refused exactly when it takes in a default of the others. */
  lemma OneHeaderRefused(r: Range)
    requires r.min <= r.max
    ensures FirstError(OnlyHeaders(Headers(Some(r), None, None, None))) == None
            <==> !Contains(r, 2) && !Contains(r, 3) && !Contains(r, 4)
    ensures FirstError(OnlyHeaders(Headers(None, Some(r), None, None))) == None
            <==> !Contains(r, 1) && !Contains(r, 3) && !Contains(r, 4)
    ensures FirstError(OnlyHeaders(Headers(None, None, Some(r), None))) == None
            <==> !Contains(r, 1) && !Contains(r, 2) && !Contains(r, 4)
    ensures FirstError(OnlyHeaders(Headers(None, None, None, Some(r)))) == None
            <==> !Contains(r, 1) && !Contains(r, 2) && !Contains(r, 3)
  {
    FirstHeaderRefused(r);
    SecondHeaderRefused(r);
    ThirdHeaderRefused(r);
    FourthHeaderRefused(r);
  }

  /** Disjointness of four ranges in force, pair by pair. */
  lemma FourDisjoint(a: Range, b: Range, c: Range, d: Range)
    ensures PairwiseDisjoint([a, b, c, d]) <==>
              Disjoint(a, b) && Disjoint(a, c) && Disjoint(a, d) && Disjoint(b, c) && Disjoint(b, d) && Disjoint(c, d)
  {
    var ranges := [a, b, c, d];
    if PairwiseDisjoint(ranges) {
      assert Disjoint(ranges[0], ranges[1]) && Disjoint(ranges[0], ranges[2]) && Disjoint(ranges[0], ranges[3]);
      assert Disjoint(ranges[1], ranges[2]) && Disjoint(ranges[1], ranges[3]) && Disjoint(ranges[2], ranges[3]);
    }
  }

  // Reading a section.

  /** An ini section: lower-case key to single-line value. */
  type Keys = map<string, string>

  /** section.GetKey, which ignores case. */
  function GetKey(section: Keys, name: string): Option<string> {
    var key := LowerCase(name);
    if key in section then Some(section[key]) else None
  }

  function IntOf(section: Keys, name: string): Option<int> {
    match GetKey(section, name)
    case None => None
    case Some(v) => ParseGoInt(v)
  }

  function RangeOf(section: Keys, name: string): Option<Range> {
    match GetKey(section, name)
    case None => None
    case Some(v) => (match ParseRange(v) case Ok(r) => Some(r) case Err(_) => None)
  }

  predicate Readable<T>(section: Keys, name: string, read: Option<T>) {
    GetKey(section, name).Some? ==> read.Some?
  }

  function JunkOf(s: Keys): Junk {
    Junk(IntOf(s, "Jc"), IntOf(s, "Jmin"), IntOf(s, "Jmax"))
  }

  function SizesOf(s: Keys): Sizes {
    Sizes(IntOf(s, "S1"), IntOf(s, "S2"), IntOf(s, "S3"), IntOf(s, "S4"))
  }

  function HeadersOf(s: Keys): Headers {
    Headers(RangeOf(s, "H1"), RangeOf(s, "H2"), RangeOf(s, "H3"), RangeOf(s, "H4"))
  }

  function PacketsOf(s: Keys): Packets {
    Packets(GetKey(s, "I1"), GetKey(s, "I2"), GetKey(s, "I3"), GetKey(s, "I4"), GetKey(s, "I5"))
  }

  predicate JunkReadable(s: Keys) {
    Readable(s, "Jc", IntOf(s, "Jc")) && Readable(s, "Jmin", IntOf(s, "Jmin")) && Readable(s, "Jmax", IntOf(s, "Jmax"))
  }

  predicate SizesReadable(s: Keys) {
    && Readable(s, "S1", IntOf(s, "S1")) && Readable(s, "S2", IntOf(s, "S2"))
    && Readable(s, "S3", IntOf(s, "S3")) && Readable(s, "S4", IntOf(s, "S4"))
  }

  predicate HeadersReadable(s: Keys) {
    && Readable(s, "H1", RangeOf(s, "H1")) && Readable(s, "H2", RangeOf(s, "H2"))
    && Readable(s, "H3", RangeOf(s, "H3")) && Readable(s, "H4", RangeOf(s, "H4"))
  }

  /** Every parameter present in the section can be read. */
  predicate AllReadable(s: Keys) {
    JunkReadable(s) && SizesReadable(s) && HeadersReadable(s)
  }

  /** The parameters of a section; nil when it has none. */
  function Assembled(s: Keys): Option<ASecConfig> {
    var c := ASecConfig(JunkOf(s), SizesOf(s), HeadersOf(s), PacketsOf(s));
    if c == NO_PARAMETERS then None else Some(c)
  }

  /** What ParseASecConfig returns without an error, if it returns without one. */
  ghost predicate Returns(s: Keys, config: Option<ASecConfig>) {
    AllReadable(s) && config == Assembled(s) && (config.Some? ==> Accepted(config.value))
  }

  const PARAMETERS := ["Jc", "Jmin", "Jmax", "S1", "S2", "S3", "S4", "H1", "H2", "H3", "H4"]

  predicate ReadableAt(section: Keys, i: nat)
    requires i < 11
  {
    if i < 7 then Readable(section, PARAMETERS[i], IntOf(section, PARAMETERS[i]))
    else Readable(section, PARAMETERS[i], RangeOf(section, PARAMETERS[i]))
  }

  /** The error of parameter i: its name, and for a header what is wrong with the range. */
  function ErrorAt(section: Keys, i: nat): AwgError
    requires i < 11 && !ReadableAt(section, i)
  {
    if i < 7 then BadInteger(PARAMETERS[i])
    else BadRange(PARAMETERS[i], ParseRange(GetKey(section, PARAMETERS[i]).value).error)
  }

  /** Parameter i is the first unreadable one from lo on, and the error is its own. */
  ghost predicate Blames(section: Keys, lo: nat, i: nat, error: AwgError) {
    && lo <= i < 11 && !ReadableAt(section, i) && error == ErrorAt(section, i)
    && forall j | lo <= j < i :: ReadableAt(section, j)
  }

  /** What is blamed after the groups before it were read is blamed in the whole section. */
  lemma BlamedInAll(section: Keys, lo: nat, i: nat, error: AwgError)
    requires Blames(section, lo, i, error) && (lo == 0 || lo == 3 || lo == 7)
    requires (lo >= 3 ==> JunkReadable(section)) && (lo >= 7 ==> SizesReadable(section))
    ensures Blames(section, 0, i, error)
  {
    forall j | 0 <= j < lo ensures ReadableAt(section, j) {
      assert j == 0 || j == 1 || j == 2 || j == 3 || j == 4 || j == 5 || j == 6;
    }
  }

  method ReadInt(section: Keys, name: string) returns (r: Result<Option<int>, AwgError>)
    ensures r.Ok? <==> Readable(section, name, IntOf(section, name))
    ensures r.Ok? ==> r.value == IntOf(section, name)
    ensures r.Err? ==> r.error == BadInteger(name)
  {
    var value := GetKey(section, name);
    if value == None {
      return Ok(None);
    }
    var n := ParseGoInt(value.value);
    if n == None {
      return Err(BadInteger(name));
    }
    return Ok(n);
  }

  method ReadRange(section: Keys, name: string) returns (r: Result<Option<Range>, AwgError>)
    ensures r.Ok? <==> Readable(section, name, RangeOf(section, name))
    ensures r.Ok? ==> r.value == RangeOf(section, name)
    ensures r.Err? ==> GetKey(section, name).Some? && ParseRange(GetKey(section, name).value).Err?
    ensures r.Err? ==> r.error == BadRange(name, ParseRange(GetKey(section, name).value).error)
  {
    var value := GetKey(section, name);
    if value == None {
      return Ok(None);
    }
    match ParseRange(value.value) {
      case Ok(range) => return Ok(Some(range));
      case Err(cause) => return Err(BadRange(name, cause));
    }
  }

  method ReadJunk(section: Keys) returns (r: Result<Junk, AwgError>)
    ensures r.Ok? <==> JunkReadable(section)
    ensures r.Ok? ==> r.value == JunkOf(section)
    ensures r.Err? ==> exists i :: i < 3 && Blames(section, 0, i, r.error)
  {
    var junk := NO_JUNK;
    var jc := ReadInt(section, "Jc");
    if jc.Err? {
      assert Blames(section, 0, 0, jc.error);
      return Err(jc.error);
    }
    junk := junk.(jc := jc.value);
    var jmin := ReadInt(section, "Jmin");
    if jmin.Err? {
      assert Blames(section, 0, 1, jmin.error);
      return Err(jmin.error);
    }
    junk := junk.(jmin := jmin.value);
    var jmax := ReadInt(section, "Jmax");
    if jmax.Err? {
      assert Blames(section, 0, 2, jmax.error);
      return Err(jmax.error);
    }
    junk := junk.(jmax := jmax.value);
    return Ok(junk);
  }

  method ReadSizes(section: Keys) returns (r: Result<Sizes, AwgError>)
    ensures r.Ok? <==> SizesReadable(section)
    ensures r.Ok? ==> r.value == SizesOf(section)
    ensures r.Err? ==> exists i :: i < 7 && Blames(section, 3, i, r.error)
  {
    var sizes := NO_SIZES;
    var s1 := ReadInt(section, "S1");
    if s1.Err? {
      assert Blames(section, 3, 3, s1.error);
      return Err(s1.error);
    }
    sizes := sizes.(s1 := s1.value);
    var s2 := ReadInt(section, "S2");
    if s2.Err? {
      assert Blames(section, 3, 4, s2.error);
      return Err(s2.error);
    }
    sizes := sizes.(s2 := s2.value);
    var s3 := ReadInt(section, "S3");
    if s3.Err? {
      assert Blames(section, 3, 5, s3.error);
      return Err(s3.error);
    }
    sizes := sizes.(s3 := s3.value);
    var s4 := ReadInt(section, "S4");
    if s4.Err? {
      assert Blames(section, 3, 6, s4.error);
      return Err(s4.error);
    }
    sizes := sizes.(s4 := s4.value);
    return Ok(sizes);
  }

  method ReadHeaders(section: Keys) returns (r: Result<Headers, AwgError>)
    ensures r.Ok? <==> HeadersReadable(section)
    ensures r.Ok? ==> r.value == HeadersOf(section)
    ensures r.Err? ==> exists i :: i < 11 && Blames(section, 7, i, r.error)
  {
    var headers := NO_HEADERS;
    var h1 := ReadRange(section, "H1");
    if h1.Err? {
      assert Blames(section, 7, 7, h1.error);
      return Err(h1.error);
    }
    headers := headers.(h1 := h1.value);
    var h2 := ReadRange(section, "H2");
    if h2.Err? {
      assert Blames(section, 7, 8, h2.error);
      return Err(h2.error);
    }
    headers := headers.(h2 := h2.value);
    var h3 := ReadRange(section, "H3");
    if h3.Err? {
      assert Blames(section, 7, 9, h3.error);
      return Err(h3.error);
    }
    headers := headers.(h3 := h3.value);
    var h4 := ReadRange(section, "H4");
    if h4.Err? {
      assert Blames(section, 7, 10, h4.error);
      return Err(h4.error);
    }
    headers := headers.(h4 := h4.value);
    return Ok(headers);
  }

  /**
   ParseASecConfig succeeds exactly on readable sections with accepted parameters; otherwise
   it blames the first unreadable parameter, or else the first violation of the validator.
   */
  method ParseASecConfig(section: Keys) returns (r: Result<Option<ASecConfig>, AwgError>)
    ensures r.Ok? <==> Returns(section, Assembled(section))
    ensures r.Ok? ==> r.value == Assembled(section)
    ensures r.Err? && !AllReadable(section) ==> exists i :: Blames(section, 0, i, r.error)
    ensures r.Err? && AllReadable(section) ==>
              Assembled(section).Some? && FirstError(Assembled(section).value) == Some(r.error)
  {
    var junk := ReadJunk(section);
    if junk.Err? {
      ghost var i :| i < 3 && Blames(section, 0, i, junk.error);
      BlamedInAll(section, 0, i, junk.error);
      return Err(junk.error);
    }
    var sizes := ReadSizes(section);
    if sizes.Err? {
      ghost var i :| i < 7 && Blames(section, 3, i, sizes.error);
      BlamedInAll(section, 3, i, sizes.error);
      return Err(sizes.error);
    }
    var headers := ReadHeaders(section);
    if headers.Err? {
      ghost var i :| i < 11 && Blames(section, 7, i, headers.error);
      BlamedInAll(section, 7, i, headers.error);
      return Err(headers.error);
    }
    var c := ASecConfig(junk.value, sizes.value, headers.value, PacketsOf(section));
    var config := if c == NO_PARAMETERS then None else Some(c);
    var error := ValidateASecConfig(config);
    if error.Some? {
      return Err(error.value);
    }
    return Ok(config);
  }
}
