/**
 withLocalSocks, which drops every [Socks5] section of a config and appends the local
 one: once in Go (cmd/config-adapter/main.go) and once in Java (ConfigStore.java).
 */
module LocalSocks {
  import opened Text

  const HEADER := "[Socks5]"
  const LOCAL := "BindAddress = 127.0.0.1:1080"
  const SUFFIX := "\n\n" + HEADER + "\n" + LOCAL + "\n"

  const SOCKS_HOST := "127.0.0.1"
  const SOCKS_PORT := "1080"

  // Line ends.

  /** Replaces every "\r\n" by "\n". */
  function ReplaceCrLf(s: string): string {
    if s == "" then ""
    else if |s| >= 2 && s[0] == '\r' && s[1] == '\n' then "\n" + ReplaceCrLf(s[2..])
    else [s[0]] + ReplaceCrLf(s[1..])
  }

  /** Replaces every "\r" by "\n". */
  function ReplaceCr(s: string): string {
    if s == "" then "" else [if s[0] == '\r' then '\n' else s[0]] + ReplaceCr(s[1..])
  }

  function Normalised(s: string): string {
    ReplaceCr(ReplaceCrLf(s))
  }

  /** Reading lines that end in LF, CR or CRLF, without normalising first. */
  function UniversalLines(s: string): (lines: seq<string>)
    ensures |lines| > 0
  {
    if s == "" then [""]
    else if s[0] == '\r' || s[0] == '\n' then
      [""] + UniversalLines(if |s| >= 2 && s[0] == '\r' && s[1] == '\n' then s[2..] else s[1..])
    else
      var rest := UniversalLines(s[1..]);
      [[s[0]] + rest[0]] + rest[1..]
  }

  /** The two replacements followed by a split read exactly the universal lines. */
  lemma {:induction false} NormalisedLines(s: string)
    ensures Split(Normalised(s), '\n') == UniversalLines(s)
    decreases |s|
  {
    if s != "" {
      var crlf := |s| >= 2 && s[0] == '\r' && s[1] == '\n';
      var rest := if crlf then s[2..] else s[1..];
      NormalisedLines(rest);
      var first := if s[0] == '\r' then '\n' else s[0];
      assert Normalised(s) == [first] + Normalised(rest) by {
        var t := ReplaceCrLf(s);
        assert t[1..] == ReplaceCrLf(rest);
      }
      assert Normalised(s)[1..] == Normalised(rest);
    }
  }

  /** Lines never contain a line end, and their characters come from the text. */
  lemma {:induction false} LineCharacters(s: string)
    ensures forall line <- UniversalLines(s) :: forall c <- line :: c in s && c != '\r' && c != '\n'
    decreases |s|
  {
    if s != "" {
      if s[0] == '\r' || s[0] == '\n' {
        var rest := if |s| >= 2 && s[0] == '\r' && s[1] == '\n' then s[2..] else s[1..];
        LineCharacters(rest);
        assert forall c | c in rest :: c in s;
        assert UniversalLines(s) == [""] + UniversalLines(rest);
      } else {
        LineCharacters(s[1..]);
        var rest := UniversalLines(s[1..]);
        forall line | line in UniversalLines(s)
          ensures line == [s[0]] + rest[0] || line in rest
        {
        }
        assert rest[0] in rest;
      }
    }
  }

  // Section headers.

  /** Case folding of the letters of "[Socks5]"; both languages also fold U+017F and U+212A. */
  predicate Folds(c: char, t: char) {
    || c == t
    || (t == 'S' && (c == 's' || c == '\U{17F}'))
    || (t == 's' && (c == 'S' || c == '\U{17F}'))
    || (t == 'o' && c == 'O')
    || (t == 'c' && c == 'C')
    || (t == 'k' && (c == 'K' || c == '\U{212A}'))
  }

  predicate EqualFold(s: string, t: string) {
    |s| == |t| && forall i | 0 <= i < |s| :: Folds(s[i], t[i])
  }

  predicate IsHeader(lang: Language, line: string) {
    var trimmed := Trim(lang, line);
    trimmed != "" && trimmed[0] == '[' && trimmed[|trimmed| - 1] == ']'
  }

  predicate IsSocks(lang: Language, line: string) {
    IsHeader(lang, line) && EqualFold(Trim(lang, line), HEADER)
  }

  /** A line is a header exactly when, trimmed, it is something in square brackets. */
  lemma HeaderIff(lang: Language, line: string)
    ensures IsHeader(lang, line) <==> exists inner :: Trim(lang, line) == "[" + inner + "]"
  {
    var t := Trim(lang, line);
    if IsHeader(lang, line) {
      assert t == "[" + t[1..|t| - 1] + "]";
    }
  }

  /** Lower case of ASCII letters, and of the two other letters that fold onto ASCII ones: U+017F and U+212A. */
  function Folded(c: char): char {
    if c == '\U{17F}' then 's' else if c == '\U{212A}' then 'k' else Lower(c)
  }

  function FoldedName(s: string): (r: string)
    ensures |r| == |s| && forall i | 0 <= i < |s| :: r[i] == Folded(s[i])
  {
    if s == "" then "" else [Folded(s[0])] + FoldedName(s[1..])
  }

  /** The trimmed line, in lower case, is the header of a Socks5 section. */
  predicate NamesSocks(lang: Language, line: string) {
    FoldedName(Trim(lang, line)) == "[socks5]"
  }

  lemma FoldsMeansFolded(c: char, i: nat)
    requires i < 8
    ensures Folds(c, HEADER[i]) <==> Folded(c) == "[socks5]"[i]
  {
  }

  lemma {:induction false} NameOfHeader(t: string)
    ensures EqualFold(t, HEADER) <==> FoldedName(t) == "[socks5]"
  {
    if |t| == 8 {
      forall i | 0 <= i < 8 ensures Folds(t[i], HEADER[i]) <==> FoldedName(t)[i] == "[socks5]"[i] {
        FoldsMeansFolded(t[i], i);
      }
    }
  }

  /** Exactly the lines whose trimmed text reads "[socks5]" in lower case begin a section that is dropped. */
  lemma SocksHeaderIff(lang: Language, line: string)
    ensures IsSocks(lang, line) <==> NamesSocks(lang, line)
  {
    var t := Trim(lang, line);
    NameOfHeader(t);
    if EqualFold(t, HEADER) {
      assert Folds(t[0], HEADER[0]) && Folds(t[7], HEADER[7]);
    }
  }

  lemma {:induction false} FoldedAscii(s: string)
    requires forall c <- s :: c < '\U{80}'
    ensures FoldedName(s) == LowerCase(s)
  {
    if s != "" {
      assert s[0] in s && forall c | c in s[1..] :: c in s;
      FoldedAscii(s[1..]);
    }
  }

  /** For an ASCII line that is plain lower case. */
  lemma AsciiSocksHeaderIff(lang: Language, line: string)
    requires forall c <- line :: c < '\U{80}'
    ensures IsSocks(lang, line) <==> LowerCase(Trim(lang, line)) == "[socks5]"
  {
    var a, b := TrimCuts(lang, line);
    assert forall c | c in Trim(lang, line) :: c in line;
    SocksHeaderIff(lang, line);
    FoldedAscii(Trim(lang, line));
  }

  // The config as a document.

  datatype Section = Section(header: string, body: seq<string>)

  datatype Document = Document(preamble: seq<string>, sections: seq<Section>)

  function Parse(lang: Language, lines: seq<string>): Document {
    if lines == [] then Document([], [])
    else
      var rest := Parse(lang, lines[1..]);
      if IsHeader(lang, lines[0]) then Document([], [Section(lines[0], rest.preamble)] + rest.sections)
      else Document([lines[0]] + rest.preamble, rest.sections)
  }

  function SectionLines(sections: seq<Section>): seq<string> {
    if sections == [] then []
    else [sections[0].header] + sections[0].body + SectionLines(sections[1..])
  }

  function Unparse(d: Document): seq<string> {
    d.preamble + SectionLines(d.sections)
  }

  function WithoutSocks(lang: Language, sections: seq<Section>): seq<Section> {
    if sections == [] then []
    else if IsSocks(lang, sections[0].header) then WithoutSocks(lang, sections[1..])
    else [sections[0]] + WithoutSocks(lang, sections[1..])
  }

  /** The lines left when every Socks5 section is dropped. */
  function Kept(lang: Language, lines: seq<string>): seq<string> {
    var d := Parse(lang, lines);
    Unparse(Document(d.preamble, WithoutSocks(lang, d.sections)))
  }

  /** What withLocalSocks promises. */
  function Rewritten(lang: Language, text: string): string {
    Join(Kept(lang, UniversalLines(text)), '\n') + SUFFIX
  }

  /** Parsing loses nothing. */
  lemma {:induction false} UnparseOfParse(lang: Language, lines: seq<string>)
    ensures Unparse(Parse(lang, lines)) == lines
  {
    if lines != [] {
      UnparseOfParse(lang, lines[1..]);
      var rest := Parse(lang, lines[1..]);
      if IsHeader(lang, lines[0]) {
        assert ([Section(lines[0], rest.preamble)] + rest.sections)[1..] == rest.sections;
      }
      assert lines == [lines[0]] + lines[1..];
    }
  }

  // The loop, with its one flag.

  /** The lines still to be kept when the rest is read inside (or outside) a Socks5 section. */
  function KeptFrom(lang: Language, lines: seq<string>, skipping: bool): seq<string> {
    var d := Parse(lang, lines);
    Unparse(Document(if skipping then [] else d.preamble, WithoutSocks(lang, d.sections)))
  }

  /** The loop itself: what it still outputs for the remaining lines. */
  function Scan(lang: Language, lines: seq<string>, skipping: bool): seq<string> {
    if lines == [] then []
    else if IsSocks(lang, lines[0]) then Scan(lang, lines[1..], true)
    else if IsHeader(lang, lines[0]) || !skipping then [lines[0]] + Scan(lang, lines[1..], false)
    else Scan(lang, lines[1..], true)
  }

  lemma KeptHeader(lang: Language, line: string, rest: seq<string>, skipping: bool)
    requires IsHeader(lang, line)
    ensures KeptFrom(lang, [line] + rest, skipping) ==
              if IsSocks(lang, line) then KeptFrom(lang, rest, true) else [line] + KeptFrom(lang, rest, false)
  {
    var d := Parse(lang, rest);
    assert ([line] + rest)[1..] == rest;
    var sections := [Section(line, d.preamble)] + d.sections;
    assert sections[1..] == d.sections;
    var kept := WithoutSocks(lang, sections);
    if !IsSocks(lang, line) {
      assert kept[1..] == WithoutSocks(lang, d.sections);
    }
  }

  lemma KeptBodyLine(lang: Language, line: string, rest: seq<string>, skipping: bool)
    requires !IsHeader(lang, line)
    ensures KeptFrom(lang, [line] + rest, skipping) ==
              if skipping then KeptFrom(lang, rest, true) else [line] + KeptFrom(lang, rest, false)
  {
    var d := Parse(lang, rest);
    assert ([line] + rest)[1..] == rest;
    assert Parse(lang, [line] + rest) == Document([line] + d.preamble, d.sections);
  }

  lemma KeptStep(lang: Language, line: string, rest: seq<string>, skipping: bool)
    ensures KeptFrom(lang, [line] + rest, skipping) ==
              if IsSocks(lang, line) then KeptFrom(lang, rest, true)
              else if IsHeader(lang, line) || !skipping then [line] + KeptFrom(lang, rest, false)
              else KeptFrom(lang, rest, true)
  {
    if IsHeader(lang, line) {
      KeptHeader(lang, line, rest, skipping);
    } else {
      KeptBodyLine(lang, line, rest, skipping);
    }
  }

  /** One pass with a flag drops exactly the Socks5 sections. */
  lemma {:induction false} ScanDropsSections(lang: Language, lines: seq<string>, skipping: bool)
    ensures Scan(lang, lines, skipping) == KeptFrom(lang, lines, skipping)
  {
    if lines != [] {
      ScanDropsSections(lang, lines[1..], true);
      ScanDropsSections(lang, lines[1..], false);
      KeptStep(lang, lines[0], lines[1..], skipping);
      assert lines == [lines[0]] + lines[1..];
    }
  }

  /** One line of the loop, without looking into what makes a header. */
  lemma ScanStep(lang: Language, lines: seq<string>, i: nat, skipping: bool, result: seq<string>)
    requires i < |lines|
    ensures result + Scan(lang, lines[i..], skipping) ==
              if IsSocks(lang, lines[i]) then result + Scan(lang, lines[i + 1..], true)
              else if IsHeader(lang, lines[i]) || !skipping then (result + [lines[i]]) + Scan(lang, lines[i + 1..], false)
              else result + Scan(lang, lines[i + 1..], true)
  {
    assert lines[i..][1..] == lines[i + 1..];
  }

  method GoWithLocalSocks(text: string) returns (prepared: string)
    ensures prepared == Rewritten(Go, text)
  {
    NormalisedLines(text);
    ScanDropsSections(Go, UniversalLines(text), false);
    var normal := ReplaceCrLf(text);
    normal := ReplaceCr(normal);
    var lines := Split(normal, '\n');
    var result: seq<string> := [];
    var skippingSocks := false;
    for i := 0 to |lines|
      invariant result + Scan(Go, lines[i..], skippingSocks) == Scan(Go, lines, false)
    {
      var line := lines[i];
      ScanStep(Go, lines, i, skippingSocks, result);
      if IsHeader(Go, line) {
        skippingSocks := IsSocks(Go, line);
        if skippingSocks {
          continue;
        }
      }
      if !skippingSocks {
        result := result + [line];
      }
    }
    assert result + [] == result;
    prepared := Join(result, '\n') + SUFFIX;
  }

  /** The builder after one more kept line. */
  lemma BuilderStep(result: seq<string>, line: string, builder: string)
    requires builder == Join(result, '\n')
    ensures Join(result + [line], '\n') == if result == [] then line else builder + "\n" + line
  {
    JoinOneMore(result, line, '\n');
  }

  /** The chain of append calls behind the loop. */
  method AppendLocalSocks(builder: string) returns (prepared: string)
    ensures prepared == builder + SUFFIX
  {
    var suffix := "\n\n" + "[Socks5]\n" + "BindAddress = " + SOCKS_HOST + ":" + SOCKS_PORT + "\n";
    prepared := builder + suffix;
  }

  /** The loop with its two flags. */
  method BuildKept(lines: seq<string>) returns (builder: string)
    ensures builder == Join(Scan(Java, lines, false), '\n')
  {
    builder := "";
    var skippingSocks := false;
    var firstOutputLine := true;
    ghost var result: seq<string> := [];
    for i := 0 to |lines|
      invariant result + Scan(Java, lines[i..], skippingSocks) == Scan(Java, lines, false)
      invariant builder == Join(result, '\n') && (firstOutputLine <==> result == [])
    {
      var line := lines[i];
      ScanStep(Java, lines, i, skippingSocks, result);
      if IsHeader(Java, line) {
        skippingSocks := IsSocks(Java, line);
        if skippingSocks {
          continue;
        }
      }
      if !skippingSocks {
        BuilderStep(result, line, builder);
        if !firstOutputLine {
          builder := builder + "\n";
        }
        builder := builder + line;
        firstOutputLine := false;
        result := result + [line];
      }
    }
    assert result + [] == result;
  }

  method JavaWithLocalSocks(text: string) returns (prepared: string)
    ensures prepared == Rewritten(Java, text)
  {
    NormalisedLines(text);
    ScanDropsSections(Java, UniversalLines(text), false);
    var normal := ReplaceCr(ReplaceCrLf(text));
    var builder := BuildKept(Split(normal, '\n'));
    prepared := AppendLocalSocks(builder);
  }

  // Which lines survive, said position by position.

  /** Line i belongs to a Socks5 section: the latest header up to it is a Socks5 header. */
  ghost predicate InSocks(lang: Language, lines: seq<string>, i: nat)
    requires i < |lines|
  {
    exists h :: 0 <= h <= i && IsSocks(lang, lines[h]) && NoHeader(lang, lines, h + 1, i + 1)
  }

  ghost predicate NoHeader(lang: Language, lines: seq<string>, lo: nat, hi: nat)
    requires hi <= |lines|
  {
    forall j | lo <= j < hi :: !IsHeader(lang, lines[j])
  }

  /** The lines before position n that are in no Socks5 section, in their order. */
  ghost function Survivors(lang: Language, lines: seq<string>, n: nat): seq<string>
    requires n <= |lines|
  {
    if n == 0 then []
    else Survivors(lang, lines, n - 1) + (if InSocks(lang, lines, n - 1) then [] else [lines[n - 1]])
  }

  lemma InSocksCarriesOver(lang: Language, lines: seq<string>, i: nat)
    requires 0 < i < |lines| && !IsHeader(lang, lines[i]) && InSocks(lang, lines, i - 1)
    ensures InSocks(lang, lines, i)
  {
    var h :| 0 <= h <= i - 1 && IsSocks(lang, lines[h]) && NoHeader(lang, lines, h + 1, i);
    assert NoHeader(lang, lines, h + 1, i + 1);
  }

  lemma InSocksComesFrom(lang: Language, lines: seq<string>, i: nat)
    requires i < |lines| && InSocks(lang, lines, i) && !IsSocks(lang, lines[i])
    ensures !IsHeader(lang, lines[i]) && i > 0 && InSocks(lang, lines, i - 1)
  {
    var h :| 0 <= h <= i && IsSocks(lang, lines[h]) && NoHeader(lang, lines, h + 1, i + 1);
    assert h != i;
    assert NoHeader(lang, lines, h + 1, i);
  }

  lemma InSocksStep(lang: Language, lines: seq<string>, i: nat)
    requires i < |lines|
    ensures InSocks(lang, lines, i) <==>
              IsSocks(lang, lines[i]) || (!IsHeader(lang, lines[i]) && i > 0 && InSocks(lang, lines, i - 1))
  {
    if IsSocks(lang, lines[i]) {
      assert NoHeader(lang, lines, i + 1, i + 1);
    } else if InSocks(lang, lines, i) {
      InSocksComesFrom(lang, lines, i);
    } else if !IsHeader(lang, lines[i]) && i > 0 && InSocks(lang, lines, i - 1) {
      InSocksCarriesOver(lang, lines, i);
    }
  }

  lemma {:induction false} SurvivorsScanned(lang: Language, lines: seq<string>, n: nat)
    requires n <= |lines|
    ensures Survivors(lang, lines, n) + Scan(lang, lines[n..], n > 0 && InSocks(lang, lines, n - 1))
            == Scan(lang, lines, false)
  {
    if n > 0 {
      SurvivorsScanned(lang, lines, n - 1);
      InSocksStep(lang, lines, n - 1);
      var before := n > 1 && InSocks(lang, lines, n - 2);
      ScanStep(lang, lines, n - 1, before, Survivors(lang, lines, n - 1));
      assert Survivors(lang, lines, n - 1) + [] == Survivors(lang, lines, n - 1);
    } else {
      assert lines[0..] == lines;
    }
  }

  /** A line is dropped exactly when it is in a Socks5 section; all others survive verbatim, in order. */
  lemma KeptAreTheSurvivors(lang: Language, lines: seq<string>)
    ensures Kept(lang, lines) == Survivors(lang, lines, |lines|)
  {
    SurvivorsScanned(lang, lines, |lines|);
    ScanDropsSections(lang, lines, false);
    assert Kept(lang, lines) == Scan(lang, lines, false);
    assert Survivors(lang, lines, |lines|) + [] == Survivors(lang, lines, |lines|);
  }

  // The result as lines.

  lemma {:induction false} ScanLines(lang: Language, lines: seq<string>, skipping: bool)
    ensures forall line <- Scan(lang, lines, skipping) :: line in lines && !IsSocks(lang, line)
  {
    if lines != [] {
      ScanLines(lang, lines[1..], true);
      ScanLines(lang, lines[1..], false);
    }
  }

  /** Nothing is dropped from lines without a Socks5 header. */
  lemma {:induction false} ScanConcat(lang: Language, a: seq<string>, b: seq<string>)
    requires forall line <- a :: !IsSocks(lang, line)
    ensures Scan(lang, a + b, false) == a + Scan(lang, b, false)
  {
    if a == [] {
      assert a + b == b;
    } else {
      assert (a + b)[1..] == a[1..] + b;
      ScanConcat(lang, a[1..], b);
    }
  }

  /** A line list that withLocalSocks leaves alone: no Socks5 header, no line end inside a line. */
  ghost predicate Plain(lang: Language, lines: seq<string>) {
    lines != [] && forall line <- lines :: !IsSocks(lang, line) && '\n' !in line && '\r' !in line
  }

  /** The kept lines as a split would show them; joining nothing reads back as one empty line. */
  function Body(lang: Language, text: string): seq<string> {
    var kept := Kept(lang, UniversalLines(text));
    if kept == [] then [""] else kept
  }

  lemma BodyIsPlain(lang: Language, text: string)
    ensures Plain(lang, Body(lang, text))
    ensures Rewritten(lang, text) == Join(Body(lang, text), '\n') + SUFFIX
  {
    var lines := UniversalLines(text);
    LineCharacters(text);
    ScanLines(lang, lines, false);
    ScanDropsSections(lang, lines, false);
    BlankIsNoHeader(lang);
  }

  lemma BlankIsNoHeader(lang: Language)
    ensures !IsHeader(lang, "")
  {
  }

  const TAIL := ["", HEADER, LOCAL, ""]

  lemma JoinFour(a: string, b: string, c: string, d: string, sep: char)
    ensures Join([a, b, c, d], sep) == a + [sep] + (b + [sep] + (c + [sep] + d))
  {
    assert [c, d][1..] == [d] && Join([c, d], sep) == c + [sep] + d;
    assert [b, c, d][1..] == [c, d] && Join([b, c, d], sep) == b + [sep] + (c + [sep] + d);
    assert [a, b, c, d][1..] == [b, c, d];
  }

  lemma SuffixIsTail()
    ensures SUFFIX == "\n" + Join(TAIL, '\n')
  {
    JoinFour("", HEADER, LOCAL, "", '\n');
  }

  lemma TailIsOneLineEach()
    ensures forall line <- TAIL :: '\n' !in line && '\r' !in line
  {
  }

  lemma JoinedTexts(a: seq<string>, b: seq<string>)
    requires a != [] && b != []
    ensures Join(a, '\n') + ("\n" + Join(b, '\n')) == Join(a + b, '\n')
  {
    JoinConcat(a, b, '\n');
  }

  /** Two joined line lists, put together, split back into the two. */
  lemma LinesThenLines(a: seq<string>, b: seq<string>)
    requires a != [] && b != []
    requires forall line <- a :: '\n' !in line && '\r' !in line
    requires forall line <- b :: '\n' !in line && '\r' !in line
    ensures Split(Join(a, '\n') + ("\n" + Join(b, '\n')), '\n') == a + b
    ensures '\r' !in Join(a, '\n') + ("\n" + Join(b, '\n'))
  {
    JoinedTexts(a, b);
    SplitOfJoin(a + b, '\n');
    JoinCharacters(a + b, '\r', '\n');
  }

  lemma LinesWithSuffix(lang: Language, lines: seq<string>)
    requires Plain(lang, lines)
    ensures Split(Join(lines, '\n') + SUFFIX, '\n') == lines + TAIL
    ensures '\r' !in Join(lines, '\n') + SUFFIX
  {
    SuffixIsTail();
    TailIsOneLineEach();
    LinesThenLines(lines, TAIL);
  }

  lemma {:induction false} JoinCharacters(lines: seq<string>, c: char, sep: char)
    requires c != sep && forall line <- lines :: c !in line
    ensures c !in Join(lines, sep)
  {
    if |lines| > 1 {
      JoinCharacters(lines[1..], c, sep);
    }
  }

  function CountSocks(lang: Language, lines: seq<string>): nat {
    if lines == [] then 0 else (if NamesSocks(lang, lines[0]) then 1 else 0) + CountSocks(lang, lines[1..])
  }

  lemma {:induction false} CountAfterPlain(lang: Language, a: seq<string>, b: seq<string>)
    requires forall line <- a :: !NamesSocks(lang, line)
    ensures CountSocks(lang, a + b) == CountSocks(lang, b)
  {
    if a == [] {
      assert a + b == b;
    } else {
      assert (a + b)[1..] == a[1..] + b;
      CountAfterPlain(lang, a[1..], b);
    }
  }

  lemma TailHeaders(lang: Language)
    ensures IsSocks(lang, HEADER) && !IsHeader(lang, LOCAL) && !IsHeader(lang, "")
  {
    TrimIsIdentityIff(lang, HEADER);
    TrimIsIdentityIff(lang, LOCAL);
  }

  lemma TailCounted(lang: Language)
    ensures CountSocks(lang, TAIL) == 1
  {
    TailHeaders(lang);
    BlankIsNoHeader(lang);
    SocksHeaderIff(lang, HEADER);
    SocksHeaderIff(lang, LOCAL);
    SocksHeaderIff(lang, "");
    CountFour(lang, "", HEADER, LOCAL, "");
  }

  lemma CountFour(lang: Language, a: string, b: string, c: string, d: string)
    ensures CountSocks(lang, [a, b, c, d]) ==
              (if NamesSocks(lang, a) then 1 else 0) + (if NamesSocks(lang, b) then 1 else 0)
              + (if NamesSocks(lang, c) then 1 else 0) + (if NamesSocks(lang, d) then 1 else 0)
  {
    assert CountSocks(lang, [d]) == if NamesSocks(lang, d) then 1 else 0;
    assert [c, d][1..] == [d] && CountSocks(lang, [c, d]) == (if NamesSocks(lang, c) then 1 else 0) + CountSocks(lang, [d]);
    assert [b, c, d][1..] == [c, d];
    assert [a, b, c, d][1..] == [b, c, d];
  }

  /** The result reads as the kept lines and the local section; it has one Socks5 header and no CR. */
  lemma ResultHasOneSocksSection(lang: Language, text: string)
    ensures var prepared := Rewritten(lang, text);
            && Split(prepared, '\n') == Body(lang, text) + ["", "[Socks5]", "BindAddress = 127.0.0.1:1080", ""]
            && CountSocks(lang, Split(prepared, '\n')) == 1
            && '\r' !in prepared
  {
    BodyIsPlain(lang, text);
    LinesWithSuffix(lang, Body(lang, text));
    forall line | line in Body(lang, text) ensures !NamesSocks(lang, line) {
      SocksHeaderIff(lang, line);
    }
    CountAfterPlain(lang, Body(lang, text), TAIL);
    TailCounted(lang);
  }

  // Repeated rewriting.

  lemma {:induction false} NormalisedWithoutCr(s: string)
    requires '\r' !in s
    ensures Normalised(s) == s
  {
    if s != "" {
      NormalisedWithoutCr(s[1..]);
      var t := ReplaceCrLf(s);
      assert t[1..] == ReplaceCrLf(s[1..]);
    }
  }

  lemma TailScanned(lang: Language)
    ensures Scan(lang, TAIL, false) == [""]
  {
    TailHeaders(lang);
    assert TAIL[1..] == [HEADER, LOCAL, ""];
    assert TAIL[1..][1..] == [LOCAL, ""];
    assert TAIL[1..][1..][1..] == [""];
    assert Scan(lang, [""], true) == [];
    assert Scan(lang, [LOCAL, ""], true) == [];
    assert Scan(lang, [HEADER, LOCAL, ""], false) == [];
  }

  /** Rewriting an already rewritten text adds one empty line before the suffix. */
  lemma RewriteAgain(lang: Language, lines: seq<string>)
    requires Plain(lang, lines)
    ensures Rewritten(lang, Join(lines, '\n') + SUFFIX) == Join(lines + [""], '\n') + SUFFIX
    ensures Plain(lang, lines + [""])
  {
    var s := Join(lines, '\n') + SUFFIX;
    LinesWithSuffix(lang, lines);
    NormalisedWithoutCr(s);
    NormalisedLines(s);
    ScanConcat(lang, lines, TAIL);
    TailScanned(lang);
    ScanDropsSections(lang, lines + TAIL, false);
    BlankIsNoHeader(lang);
  }

  /** n applications of withLocalSocks. */
  function Times(lang: Language, text: string, n: nat): string {
    if n == 0 then text else Rewritten(lang, Times(lang, text, n - 1))
  }

  function Blanks(n: nat): seq<string> {
    if n == 0 then [] else Blanks(n - 1) + [""]
  }

  function Newlines(n: nat): string {
    if n == 0 then "" else Newlines(n - 1) + "\n"
  }

  lemma {:induction false} JoinBlanks(lines: seq<string>, n: nat)
    requires lines != []
    ensures Join(lines + Blanks(n), '\n') == Join(lines, '\n') + Newlines(n)
  {
    if n == 0 {
      assert lines + [] == lines;
    } else {
      JoinBlanks(lines, n - 1);
      assert lines + Blanks(n) == (lines + Blanks(n - 1)) + [""];
      JoinOneMore(lines + Blanks(n - 1), "", '\n');
      assert Join(lines + Blanks(n), '\n') == Join(lines + Blanks(n - 1), '\n') + "\n";
    }
  }

  lemma {:induction false} TimesLines(lang: Language, text: string, n: nat)
    requires n > 0
    ensures Plain(lang, Body(lang, text) + Blanks(n - 1))
    ensures Times(lang, text, n) == Join(Body(lang, text) + Blanks(n - 1), '\n') + SUFFIX
  {
    BodyIsPlain(lang, text);
    if n == 1 {
      assert Body(lang, text) + Blanks(0) == Body(lang, text);
      assert Times(lang, text, 0) == text;
    } else {
      TimesLines(lang, text, n - 1);
      RewriteAgain(lang, Body(lang, text) + Blanks(n - 2));
      assert Body(lang, text) + Blanks(n - 2) + [""] == Body(lang, text) + Blanks(n - 1);
    }
  }

  /** n applications give the kept text, then n - 1 extra newlines, then the fixed suffix. */
  lemma RepeatedRewriting(lang: Language, text: string, n: nat)
    requires n > 0
    ensures Times(lang, text, n)
            == Join(Kept(lang, UniversalLines(text)), '\n') + Newlines(n - 1) + SUFFIX
  {
    TimesLines(lang, text, n);
    JoinBlanks(Body(lang, text), n - 1);
  }

  function NonBlank(lines: seq<string>): seq<string> {
    if lines == [] then []
    else (if lines[0] == "" then [] else [lines[0]]) + NonBlank(lines[1..])
  }

  lemma {:induction false} NonBlankConcat(a: seq<string>, b: seq<string>)
    ensures NonBlank(a + b) == NonBlank(a) + NonBlank(b)
  {
    if a == [] {
      assert a + b == b;
    } else {
      assert (a + b)[1..] == a[1..] + b;
      NonBlankConcat(a[1..], b);
    }
  }

  lemma {:induction false} NonBlankBlanks(n: nat)
    ensures NonBlank(Blanks(n)) == []
  {
    if n > 0 {
      NonBlankBlanks(n - 1);
      NonBlankConcat(Blanks(n - 1), [""]);
    }
  }

  lemma LinesOfTimes(lang: Language, text: string, n: nat)
    requires n > 0
    ensures Split(Times(lang, text, n), '\n') == Body(lang, text) + Blanks(n - 1) + TAIL
  {
    TimesLines(lang, text, n);
    LinesWithSuffix(lang, Body(lang, text) + Blanks(n - 1));
  }

  lemma NonBlankOfTimes(lang: Language, text: string, n: nat)
    requires n > 0
    ensures NonBlank(Split(Times(lang, text, n), '\n')) == NonBlank(Body(lang, text)) + NonBlank(TAIL)
  {
    LinesOfTimes(lang, text, n);
    NonBlankParts(Body(lang, text), n - 1, TAIL);
  }

  /** The text grows, but after the first application its non-blank lines no longer change. */
  lemma NonBlankLinesAreStable(lang: Language, text: string, n: nat)
    requires n > 0
    ensures NonBlank(Split(Times(lang, text, n), '\n')) == NonBlank(Split(Rewritten(lang, text), '\n'))
  {
    NonBlankOfTimes(lang, text, n);
    NonBlankOfTimes(lang, text, 1);
  }

  lemma NonBlankParts(a: seq<string>, n: nat, b: seq<string>)
    ensures NonBlank(a + Blanks(n) + b) == NonBlank(a) + NonBlank(b)
  {
    NonBlankConcat(a + Blanks(n), b);
    NonBlankConcat(a, Blanks(n));
    NonBlankBlanks(n);
  }

  /** The text itself is not a fixed point: every further application adds one newline. */
  lemma EveryRewriteAddsANewline(lang: Language, text: string, n: nat)
    requires n > 0
    ensures |Times(lang, text, n + 1)| == |Times(lang, text, n)| + 1
  {
    RepeatedRewriting(lang, text, n);
    RepeatedRewriting(lang, text, n + 1);
  }

  // Go against Java.

  predicate SpacesAgree(c: char) {
    IsSpace(Go, c) <==> IsSpace(Java, c)
  }

  lemma {:induction false} ScanAgrees(lines: seq<string>, skipping: bool)
    requires forall line <- lines :: forall c <- line :: SpacesAgree(c)
    ensures Scan(Go, lines, skipping) == Scan(Java, lines, skipping)
  {
    if lines != [] {
      assert lines[0] in lines;
      TrimAgrees(lines[0]);
      assert forall line | line in lines[1..] :: line in lines;
      ScanAgrees(lines[1..], true);
      ScanAgrees(lines[1..], false);
    }
  }

  /** The two versions return the same text whenever they agree on which of its characters are spaces. */
  lemma GoAndJavaAgree(text: string)
    requires forall c <- text :: SpacesAgree(c)
    ensures Rewritten(Go, text) == Rewritten(Java, text)
  {
    var lines := UniversalLines(text);
    LineCharacters(text);
    ScanAgrees(lines, false);
    ScanDropsSections(Go, lines, false);
    ScanDropsSections(Java, lines, false);
  }

  /** In particular for ASCII text whose only control characters are tab, LF, VT, FF and CR. */
  lemma AsciiTextsAgree(text: string)
    requires forall c <- text :: ' ' <= c <= '~' || '\t' <= c <= '\r'
    ensures Rewritten(Go, text) == Rewritten(Java, text)
  {
    GoAndJavaAgree(text);
  }

  // Exactly when they agree.

  /** How often the line occurs before position n. */
  function Occurs(lines: seq<string>, line: string, n: nat): nat
    requires n <= |lines|
  {
    if n == 0 then 0 else Occurs(lines, line, n - 1) + if lines[n - 1] == line then 1 else 0
  }

  lemma {:induction false} OccursInPrefix(lines: seq<string>, last: string, line: string, n: nat)
    requires n <= |lines|
    ensures Occurs(lines + [last], line, n) == Occurs(lines, line, n)
  {
    if n > 0 {
      OccursInPrefix(lines, last, line, n - 1);
    }
  }

  /** How often the line survives before position n. */
  ghost function Survives(lang: Language, lines: seq<string>, line: string, n: nat): nat
    requires n <= |lines|
  {
    if n == 0 then 0
    else
      Survives(lang, lines, line, n - 1)
      + if lines[n - 1] == line && !InSocks(lang, lines, n - 1) then 1 else 0
  }

  lemma OneMoreOccurs(lines: seq<string>, last: string, line: string)
    ensures Occurs(lines + [last], line, |lines| + 1) == Occurs(lines, line, |lines|) + if last == line then 1 else 0
  {
    OccursInPrefix(lines, last, line, |lines|);
  }

  lemma {:induction false} SurvivorsCounted(lang: Language, lines: seq<string>, line: string, n: nat)
    requires n <= |lines|
    ensures Occurs(Survivors(lang, lines, n), line, |Survivors(lang, lines, n)|) == Survives(lang, lines, line, n)
  {
    if n > 0 {
      SurvivorsCounted(lang, lines, line, n - 1);
      var before := Survivors(lang, lines, n - 1);
      if InSocks(lang, lines, n - 1) {
        assert Survivors(lang, lines, n) == before;
      } else {
        assert Survivors(lang, lines, n) == before + [lines[n - 1]];
        OneMoreOccurs(before, lines[n - 1], line);
      }
    }
  }

  /** A Socks5 header never survives. */
  lemma {:induction false} SocksHeadersDropped(lang: Language, lines: seq<string>, line: string, n: nat)
    requires n <= |lines| && IsSocks(lang, line)
    ensures Survives(lang, lines, line, n) == 0
  {
    if n > 0 {
      SocksHeadersDropped(lang, lines, line, n - 1);
      InSocksStep(lang, lines, n - 1);
    }
  }

  /** Any other header always survives. */
  lemma {:induction false} OtherHeadersKept(lang: Language, lines: seq<string>, line: string, n: nat)
    requires n <= |lines| && IsHeader(lang, line) && !IsSocks(lang, line)
    ensures Survives(lang, lines, line, n) == Occurs(lines, line, n)
  {
    if n > 0 {
      OtherHeadersKept(lang, lines, line, n - 1);
      InSocksStep(lang, lines, n - 1);
    }
  }

  /** The count tells whether a copy at position i was kept or dropped. */
  lemma {:induction false} CopyCounted(lang: Language, lines: seq<string>, i: nat, n: nat)
    requires i < |lines| && n <= |lines|
    ensures Survives(lang, lines, lines[i], n) <= Occurs(lines, lines[i], n)
    ensures i < n && !InSocks(lang, lines, i) ==> Survives(lang, lines, lines[i], n) > 0
    ensures i < n && InSocks(lang, lines, i) ==> Survives(lang, lines, lines[i], n) < Occurs(lines, lines[i], n)
  {
    if n > 0 {
      CopyCounted(lang, lines, i, n - 1);
    }
  }

  /** At the first line on which two readings part, one keeps and the other drops a different number of copies. */
  lemma PartingCounted(a: Language, b: Language, lines: seq<string>, i: nat)
    requires i < |lines| && InSocks(a, lines, i) && !InSocks(b, lines, i)
    requires i > 0 ==> (InSocks(a, lines, i - 1) <==> InSocks(b, lines, i - 1))
    ensures Survives(a, lines, lines[i], |lines|) < Survives(b, lines, lines[i], |lines|)
  {
    InSocksStep(a, lines, i);
    InSocksStep(b, lines, i);
    CopyCounted(a, lines, i, |lines|);
    CopyCounted(b, lines, i, |lines|);
    if IsSocks(a, lines[i]) {
      SocksHeadersDropped(a, lines, lines[i], |lines|);
    } else {
      OtherHeadersKept(b, lines, lines[i], |lines|);
    }
  }

  /** Both versions drop the same lines. */
  ghost predicate SameDropped(lines: seq<string>) {
    forall i: nat | i < |lines| :: InSocks(Go, lines, i) <==> InSocks(Java, lines, i)
  }

  /** The first of the lines before n on which the two versions part. */
  lemma {:induction false} FirstParting(lines: seq<string>, n: nat) returns (i: nat)
    requires n <= |lines| && exists k: nat :: k < n && !(InSocks(Go, lines, k) <==> InSocks(Java, lines, k))
    ensures i < n && !(InSocks(Go, lines, i) <==> InSocks(Java, lines, i))
    ensures i > 0 ==> (InSocks(Go, lines, i - 1) <==> InSocks(Java, lines, i - 1))
  {
    if exists k: nat :: k < n - 1 && !(InSocks(Go, lines, k) <==> InSocks(Java, lines, k)) {
      i := FirstParting(lines, n - 1);
    } else {
      i := n - 1;
    }
  }

  lemma {:induction false} SameSurvivors(lines: seq<string>, n: nat)
    requires n <= |lines| && SameDropped(lines)
    ensures Survivors(Go, lines, n) == Survivors(Java, lines, n)
  {
    if n > 0 {
      SameSurvivors(lines, n - 1);
    }
  }

  /** A line the two versions treat differently is not blank. */
  lemma PartingIsNotBlank(lines: seq<string>, i: nat)
    requires i < |lines| && !(InSocks(Go, lines, i) <==> InSocks(Java, lines, i))
    requires i > 0 ==> (InSocks(Go, lines, i - 1) <==> InSocks(Java, lines, i - 1))
    ensures lines[i] != ""
  {
    InSocksStep(Go, lines, i);
    InSocksStep(Java, lines, i);
    BlankIsNoHeader(Go);
    BlankIsNoHeader(Java);
  }

  lemma BodyCounted(lang: Language, text: string, line: string)
    requires line != ""
    ensures var lines, body := UniversalLines(text), Body(lang, text);
            Occurs(body, line, |body|) == Survives(lang, lines, line, |lines|)
  {
    var lines := UniversalLines(text);
    KeptAreTheSurvivors(lang, lines);
    SurvivorsCounted(lang, lines, line, |lines|);
    assert Occurs([""], line, 1) == Occurs([""], line, 0);
  }

  /** Equal results have equal lines before the local section. */
  lemma EqualTextsEqualBodies(text: string)
    requires Rewritten(Go, text) == Rewritten(Java, text)
    ensures Body(Go, text) == Body(Java, text)
  {
    BodyIsPlain(Go, text);
    BodyIsPlain(Java, text);
    LinesWithSuffix(Go, Body(Go, text));
    LinesWithSuffix(Java, Body(Java, text));
    SameTail(Body(Go, text), Body(Java, text), TAIL);
  }

  lemma SameTail(a: seq<string>, b: seq<string>, tail: seq<string>)
    requires a + tail == b + tail
    ensures a == b
  {
    assert |a| == |b|;
    assert a == (a + tail)[..|a|] && b == (b + tail)[..|b|];
  }

  /**
   The two versions return the same text exactly when they drop the same lines: when for
   every line both take the latest header up to it for a Socks5 header, or neither does.
   */
  lemma AgreementIsExact(text: string)
    ensures Rewritten(Go, text) == Rewritten(Java, text) <==> SameDropped(UniversalLines(text))
  {
    var lines := UniversalLines(text);
    if SameDropped(lines) {
      SameSurvivors(lines, |lines|);
      KeptAreTheSurvivors(Go, lines);
      KeptAreTheSurvivors(Java, lines);
    } else if Rewritten(Go, text) == Rewritten(Java, text) {
      var i := FirstParting(lines, |lines|);
      PartingIsNotBlank(lines, i);
      EqualTextsEqualBodies(text);
      BodyCounted(Go, text, lines[i]);
      BodyCounted(Java, text, lines[i]);
      if InSocks(Go, lines, i) {
        PartingCounted(Go, Java, lines, i);
      } else {
        PartingCounted(Java, Go, lines, i);
      }
    }
  }

  /** So on every character that only one language takes for a space there is a text they rewrite differently. */
  lemma SpacesDecideAgreement(c: char)
    ensures Rewritten(Go, [c] + HEADER) == Rewritten(Java, [c] + HEADER) <==> SpacesAgree(c)
  {
    var text := [c] + HEADER;
    if SpacesAgree(c) {
      GoAndJavaAgree(text);
    } else {
      var lang, other := if IsSpace(Go, c) then Go else Java, if IsSpace(Go, c) then Java else Go;
      OneLine(text);
      SpaceThenHeader(lang, c);
      CharThenHeader(other, c);
      InSocksStep(lang, [text], 0);
      InSocksStep(other, [text], 0);
      AgreementIsExact(text);
    }
  }

  lemma {:induction false} OneLine(s: string)
    requires '\r' !in s && '\n' !in s
    ensures UniversalLines(s) == [s]
  {
    if s != "" {
      OneLine(s[1..]);
      assert s == [s[0]] + s[1..];
    }
  }

  lemma SpaceThenHeader(lang: Language, c: char)
    requires IsSpace(lang, c)
    ensures IsSocks(lang, [c] + HEADER)
  {
    assert ([c] + HEADER)[1..] == HEADER;
    TailHeaders(lang);
    TrimShrinks(lang, HEADER);
    assert TrimLeft(lang, [c] + HEADER) == HEADER;
  }

  lemma CharThenHeader(lang: Language, c: char)
    requires !IsSpace(lang, c) && c != '['
    ensures !IsHeader(lang, [c] + HEADER)
  {
    TrimIsIdentityIff(lang, [c] + HEADER);
  }
}
