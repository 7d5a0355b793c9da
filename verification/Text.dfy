/** String functions of the Go and Java libraries that the config code relies on. */
module Text {
  // Splitting at a one-character separator, and joining.

  /** strings.Split and String.split(sep, -1): one part more than there are separators. */
  function Split(s: string, sep: char): (parts: seq<string>)
    ensures |parts| > 0
  {
    if s == "" then [""]
    else
      var rest := Split(s[1..], sep);
      if s[0] == sep then [""] + rest else [[s[0]] + rest[0]] + rest[1..]
  }

  /** strings.Join with a one-character separator. */
  function Join(parts: seq<string>, sep: char): string {
    if parts == [] then ""
    else if |parts| == 1 then parts[0]
    else parts[0] + [sep] + Join(parts[1..], sep)
  }

  lemma {:induction false} JoinOfSplit(s: string, sep: char)
    ensures Join(Split(s, sep), sep) == s
  {
    if s != "" {
      JoinOfSplit(s[1..], sep);
      var rest := Split(s[1..], sep);
      if s[0] == sep {
        assert ([""] + rest)[1..] == rest;
        assert Split(s, sep) == [""] + rest;
      } else {
        var parts := [[s[0]] + rest[0]] + rest[1..];
        assert parts[1..] == rest[1..];
        assert Split(s, sep) == parts;
      }
    }
  }

  /** Splitting at a separator in the middle. */
  lemma {:induction false} SplitConcat(a: string, b: string, sep: char)
    ensures Split(a + [sep] + b, sep) == Split(a, sep) + Split(b, sep)
  {
    var whole := a + [sep] + b;
    if a == "" {
      assert whole[1..] == b;
    } else {
      assert whole[1..] == a[1..] + [sep] + b;
      SplitConcat(a[1..], b, sep);
    }
  }

  lemma {:induction false} SplitWithoutSeparator(s: string, sep: char)
    requires sep !in s
    ensures Split(s, sep) == [s]
  {
    if s != "" {
      SplitWithoutSeparator(s[1..], sep);
      assert s == [s[0]] + s[1..];
    }
  }

  lemma {:induction false} SplitOfJoin(parts: seq<string>, sep: char)
    requires parts != [] && forall p <- parts :: sep !in p
    ensures Split(Join(parts, sep), sep) == parts
  {
    SplitWithoutSeparator(parts[0], sep);
    assert parts == [parts[0]] + parts[1..];
    if |parts| > 1 {
      SplitOfJoin(parts[1..], sep);
      SplitConcat(parts[0], Join(parts[1..], sep), sep);
      assert Split(Join(parts, sep), sep) == [parts[0]] + parts[1..];
    } else {
      assert Join(parts, sep) == parts[0] && parts == [parts[0]];
    }
  }

  lemma {:induction false} JoinConcat(a: seq<string>, b: seq<string>, sep: char)
    requires a != [] && b != []
    ensures Join(a + b, sep) == Join(a, sep) + [sep] + Join(b, sep)
  {
    if |a| > 1 {
      assert (a + b)[1..] == a[1..] + b;
      JoinConcat(a[1..], b, sep);
    } else {
      assert (a + b)[1..] == b;
    }
  }

  /** Joining one part more. */
  lemma JoinOneMore(parts: seq<string>, last: string, sep: char)
    ensures Join(parts + [last], sep) == if parts == [] then last else Join(parts, sep) + [sep] + last
  {
    if parts != [] {
      JoinConcat(parts, [last], sep);
    }
  }

  // Trimming. The two languages differ in what they take for a space.

  datatype Language = Go | Java

  /** unicode.IsSpace for Go; everything up to U+0020 for Java's trim. */
  predicate IsSpace(lang: Language, c: char) {
    match lang
    case Java => c <= ' '
    case Go =>
      '\t' <= c <= '\r' || c == ' ' || c == '\U{85}' || c == '\U{A0}' || c == '\U{1680}'
      || '\U{2000}' <= c <= '\U{200A}' || c == '\U{2028}' || c == '\U{2029}' || c == '\U{202F}'
      || c == '\U{205F}' || c == '\U{3000}'
  }

  function TrimLeft(lang: Language, s: string): string {
    if s != "" && IsSpace(lang, s[0]) then TrimLeft(lang, s[1..]) else s
  }

  function TrimRight(lang: Language, s: string): string {
    if s != "" && IsSpace(lang, s[|s| - 1]) then TrimRight(lang, s[..|s| - 1]) else s
  }

  function Trim(lang: Language, s: string): string {
    TrimRight(lang, TrimLeft(lang, s))
  }

  /** A text that neither starts nor ends with a space. */
  predicate Trimmed(lang: Language, s: string) {
    s == "" || (!IsSpace(lang, s[0]) && !IsSpace(lang, s[|s| - 1]))
  }

  ghost predicate AllSpaces(lang: Language, s: string) {
    forall c <- s :: IsSpace(lang, c)
  }

  lemma {:induction false} TrimLeftCuts(lang: Language, s: string) returns (a: string)
    ensures s == a + TrimLeft(lang, s) && AllSpaces(lang, a)
    ensures TrimLeft(lang, s) == "" || !IsSpace(lang, TrimLeft(lang, s)[0])
    decreases |s|
  {
    if s != "" && IsSpace(lang, s[0]) {
      var rest := TrimLeftCuts(lang, s[1..]);
      a := [s[0]] + rest;
    } else {
      a := "";
    }
  }

  lemma {:induction false} TrimRightCuts(lang: Language, s: string) returns (b: string)
    ensures s == TrimRight(lang, s) + b && AllSpaces(lang, b)
    ensures var t := TrimRight(lang, s); t == "" || !IsSpace(lang, t[|t| - 1])
    decreases |s|
  {
    if s != "" && IsSpace(lang, s[|s| - 1]) {
      var rest := TrimRightCuts(lang, s[..|s| - 1]);
      b := rest + [s[|s| - 1]];
    } else {
      b := "";
    }
  }

  /** Trimming cuts off spaces at both ends, all of them and nothing else. */
  lemma TrimCuts(lang: Language, s: string) returns (a: string, b: string)
    ensures s == a + Trim(lang, s) + b && AllSpaces(lang, a) && AllSpaces(lang, b)
    ensures Trimmed(lang, Trim(lang, s))
  {
    a := TrimLeftCuts(lang, s);
    b := TrimRightCuts(lang, TrimLeft(lang, s));
    var t := Trim(lang, s);
    assert t != "" ==> t[0] == TrimLeft(lang, s)[0];
  }

  lemma TrimIsIdentityIff(lang: Language, s: string)
    ensures Trim(lang, s) == s <==> Trimmed(lang, s)
  {
    TrimShrinks(lang, s);
    TrimShrinks(lang, TrimLeft(lang, s));
  }

  lemma {:induction false} TrimShrinks(lang: Language, s: string)
    ensures if s == "" || !IsSpace(lang, s[0]) then TrimLeft(lang, s) == s else |TrimLeft(lang, s)| < |s|
    ensures if s == "" || !IsSpace(lang, s[|s| - 1]) then TrimRight(lang, s) == s else |TrimRight(lang, s)| < |s|
    decreases |s|
  {
    if s != "" {
      TrimShrinks(lang, s[1..]);
      TrimShrinks(lang, s[..|s| - 1]);
    }
  }

  /** Both languages trim a text alike when they agree on each of its characters. */
  lemma {:induction false} TrimAgrees(s: string)
    requires forall c <- s :: IsSpace(Go, c) <==> IsSpace(Java, c)
    ensures Trim(Go, s) == Trim(Java, s)
  {
    TrimSidesAgree(s);
    LeftSubset(s);
    TrimSidesAgree(TrimLeft(Java, s));
  }

  lemma {:induction false} TrimSidesAgree(s: string)
    requires forall c <- s :: IsSpace(Go, c) <==> IsSpace(Java, c)
    ensures TrimLeft(Go, s) == TrimLeft(Java, s) && TrimRight(Go, s) == TrimRight(Java, s)
    decreases |s|
  {
    if s != "" {
      TrimSidesAgree(s[1..]);
      TrimSidesAgree(s[..|s| - 1]);
    }
  }

  lemma {:induction false} LeftSubset(s: string)
    ensures forall c <- TrimLeft(Java, s) :: c in s
  {
    if s != "" {
      LeftSubset(s[1..]);
    }
  }

  // Case.

  function Lower(c: char): char {
    if 'A' <= c <= 'Z' then c + 32 as char else c
  }

  function LowerCase(s: string): string {
    if s == "" then "" else [Lower(s[0])] + LowerCase(s[1..])
  }

  // Searching.

  /** indexOf: the first place of c, or -1. */
  function IndexOf(s: string, c: char): (i: int)
    ensures i == -1 <==> c !in s
    ensures i != -1 ==> 0 <= i < |s| && s[i] == c && c !in s[..i]
  {
    if s == "" then -1
    else if s[0] == c then 0
    else
      var i := IndexOf(s[1..], c);
      if i == -1 then -1
      else
        assert s[..i + 1] == [s[0]] + s[1..][..i];
        i + 1
  }

  /** lastIndexOf: the last place of c, or -1. */
  function LastIndexOf(s: string, c: char): (i: int)
    ensures i == -1 <==> c !in s
    ensures i != -1 ==> 0 <= i < |s| && s[i] == c && c !in s[i + 1..]
  {
    if s == "" then -1
    else if s[|s| - 1] == c then |s| - 1
    else
      var i := LastIndexOf(s[..|s| - 1], c);
      assert i != -1 ==> s[i + 1..] == s[..|s| - 1][i + 1..] + [s[|s| - 1]];
      i
  }

  lemma {:induction false} LastAfter(a: string, c: char, b: string)
    requires c !in b
    ensures LastIndexOf(a + [c] + b, c) == |a|
    decreases |b|
  {
    var s := a + [c] + b;
    if b != "" {
      assert s[..|s| - 1] == a + [c] + b[..|b| - 1];
      LastAfter(a, c, b[..|b| - 1]);
      assert s[|s| - 1] == b[|b| - 1];
    }
  }

  lemma FirstAfter(a: string, c: char, b: string)
    requires c !in a
    ensures IndexOf(a + [c] + b, c) == |a|
  {
    var s := a + [c] + b;
    forall j | 0 <= j < |a| ensures s[j] != c {
      assert s[j] == a[j];
    }
    assert s[|a|] == c;
    var i := IndexOf(s, c);
    var k := if i > |a| then i else |s|;
    assert s[..k][|a|] == c;
  }

  /** The last place in a suffix is the last place in the whole. */
  lemma LastInSuffix(s: string, k: nat, c: char)
    requires k <= |s|
    ensures LastIndexOf(s[k..], c) >= 0 ==> LastIndexOf(s, c) == k + LastIndexOf(s[k..], c)
  {
    if c in s[k..] {
      var j := LastIndexOf(s[k..], c);
      var t := s[k + j + 1..];
      assert t == s[k..][j + 1..];
      assert s == s[..k + j] + [c] + t;
      LastAfter(s[..k + j], c, t);
    }
  }

  predicate StartsWith(s: string, prefix: string) {
    prefix <= s
  }
}
