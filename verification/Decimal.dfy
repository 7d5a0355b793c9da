/** Printing and reading integers as fmt, strconv and java.lang.Integer do. */
module Decimal {
  import opened Base
  import opened Text

  const DIGITS := "0123456789"

  function PrintNat(n: nat): (s: string)
    ensures s != ""
  {
    if n < 10 then [DIGITS[n]] else PrintNat(n / 10) + [DIGITS[n % 10]]
  }

  /** %d, FormatUint and string concatenation in Java. */
  function PrintInt(n: int): string {
    if n < 0 then "-" + PrintNat(-n) else PrintNat(n)
  }

  /** The value of a digit in bases up to 36. */
  function DigitOf(c: char): Option<nat> {
    if '0' <= c <= '9' then Some(c as int - '0' as int)
    else if 'a' <= c <= 'z' then Some(c as int - 'a' as int + 10)
    else if 'A' <= c <= 'Z' then Some(c as int - 'A' as int + 10)
    else None
  }

  function DigitsIn(s: string, base: nat): Option<nat> {
    if s == "" then Some(0)
    else
      var high, low := DigitsIn(s[..|s| - 1], base), DigitOf(s[|s| - 1]);
      if high.Some? && low.Some? && low.value < base then Some(high.value * base + low.value) else None
  }

  predicate IsDigit(c: char) {
    '0' <= c <= '9'
  }

  /** A printed number reads back in base ten, is all digits, and has no leading zero but for 0. */
  lemma {:induction false} PrintedDigits(n: nat)
    ensures DigitsIn(PrintNat(n), 10) == Some(n)
    ensures forall c <- PrintNat(n) :: IsDigit(c)
    ensures PrintNat(n)[0] == '0' <==> n == 0
    ensures n == 0 ==> PrintNat(n) == "0"
  {
    if n < 10 {
      assert [DIGITS[n]][..0] == "";
      assert DigitsIn("", 10) == Some(0);
    } else {
      PrintedDigits(n / 10);
      var s := PrintNat(n);
      assert s[..|s| - 1] == PrintNat(n / 10);
    }
  }

  // Which texts are numbers, without reading them.

  function Zeros(k: nat): string {
    if k == 0 then "" else "0" + Zeros(k - 1)
  }

  /** The text is the printed number, possibly after leading zeros. */
  ghost predicate IsNumeral(s: string, n: nat) {
    exists k: nat :: s == Zeros(k) + PrintNat(n)
  }

  lemma {:induction false} ZerosRead(k: nat)
    ensures DigitsIn(Zeros(k), 10) == Some(0) && (forall c <- Zeros(k) :: c == '0')
    ensures Zeros(k + 1) == Zeros(k) + "0"
  {
    if k > 0 {
      ZerosRead(k - 1);
      var z := Zeros(k);
      assert z == Zeros(k - 1) + "0";
      assert z[..|z| - 1] == Zeros(k - 1);
    }
  }

  /** Reading digits, then one more. */
  lemma OneMoreDigit(s: string, d: nat)
    requires d < 10
    ensures DigitsIn(s + [DIGITS[d]], 10) ==
              match DigitsIn(s, 10) case None => None case Some(m) => Some(10 * m + d)
  {
    assert (s + [DIGITS[d]])[..|s|] == s;
  }

  lemma {:induction false} NumeralReads(k: nat, n: nat)
    ensures DigitsIn(Zeros(k) + PrintNat(n), 10) == Some(n)
  {
    if n < 10 {
      ZerosRead(k);
      OneMoreDigit(Zeros(k), n);
    } else {
      NumeralReads(k, n / 10);
      OneMoreDigit(Zeros(k) + PrintNat(n / 10), n % 10);
      assert Zeros(k) + PrintNat(n) == Zeros(k) + PrintNat(n / 10) + [DIGITS[n % 10]];
    }
  }

  lemma NumeralExtended(s: string, m: nat, k: nat, d: nat)
    requires s == Zeros(k) + PrintNat(m) && d < 10
    ensures IsNumeral(s + [DIGITS[d]], 10 * m + d)
  {
    if m > 0 {
      assert s + [DIGITS[d]] == Zeros(k) + PrintNat(10 * m + d);
    } else {
      ZerosRead(k);
      assert PrintNat(0) == "0" && s + [DIGITS[d]] == Zeros(k + 1) + PrintNat(d);
    }
  }

  lemma {:induction false} ReadIsNumeral(s: string)
    requires s != "" && DigitsIn(s, 10).Some?
    ensures IsNumeral(s, DigitsIn(s, 10).value)
  {
    var front, last := s[..|s| - 1], s[|s| - 1];
    var d := DigitOf(last).value;
    assert s == front + [DIGITS[d]];
    if front == "" {
      assert s == Zeros(0) + PrintNat(d);
    } else {
      ReadIsNumeral(front);
      var m := DigitsIn(front, 10).value;
      var k: nat :| front == Zeros(k) + PrintNat(m);
      NumeralExtended(front, m, k, d);
    }
  }

  /** Digits read as n in base ten exactly when they are the printed n after leading zeros. */
  lemma NumeralIff(s: string, n: nat)
    ensures s != "" && DigitsIn(s, 10) == Some(n) <==> IsNumeral(s, n)
  {
    if s != "" && DigitsIn(s, 10) == Some(n) {
      ReadIsNumeral(s);
    }
    if IsNumeral(s, n) {
      var k: nat :| s == Zeros(k) + PrintNat(n);
      NumeralReads(k, n);
    }
  }

  lemma {:induction false} NumeralDigits(s: string, n: nat)
    requires IsNumeral(s, n)
    ensures s != "" && forall c <- s :: IsDigit(c)
  {
    var k: nat :| s == Zeros(k) + PrintNat(n);
    ZerosRead(k);
    PrintedDigits(n);
  }

  /** Optional sign, then at least one digit. */
  function Signed(s: string): (bool, string) {
    if s != "" && (s[0] == '-' || s[0] == '+') then (s[0] == '-', s[1..]) else (false, s)
  }

  // java.lang.Integer.parseInt.

  const INT32_LIMIT := 0x8000_0000

  predicate IsInt32(n: int) {
    -INT32_LIMIT <= n < INT32_LIMIT
  }

  function ParseJavaInt(s: string): Option<int> {
    var (negative, digits) := Signed(s);
    var magnitude := DigitsIn(digits, 10);
    if digits == "" || magnitude == None then None
    else
      var n: int := if negative then -(magnitude.value as int) else magnitude.value;
      if IsInt32(n) then Some(n) else None
  }

  lemma SignedPrint(n: int)
    ensures Signed(PrintInt(n)) == (n < 0, PrintNat(if n < 0 then -n else n))
  {
    PrintedDigits(if n < 0 then -n else n);
    assert IsDigit(PrintNat(if n < 0 then -n else n)[0]);
  }

  lemma JavaIntRoundTrip(n: int)
    ensures ParseJavaInt(PrintInt(n)) == if IsInt32(n) then Some(n) else None
  {
    SignedPrint(n);
    PrintedDigits(if n < 0 then -n else n);
  }

  /** The texts Integer.parseInt takes for n: an optional sign before a numeral. */
  ghost predicate IsSignedNumeral(s: string, n: int) {
    || (n >= 0 && IsNumeral(s, n))
    || (n >= 0 && s != "" && s[0] == '+' && IsNumeral(s[1..], n))
    || (n <= 0 && s != "" && s[0] == '-' && IsNumeral(s[1..], -n))
  }

  /** Integer.parseInt accepts exactly the signed numerals of 32-bit ints. */
  lemma JavaIntIff(s: string, n: int)
    ensures ParseJavaInt(s) == Some(n) <==> IsInt32(n) && IsSignedNumeral(s, n)
  {
    var (negative, digits) := Signed(s);
    var m: nat := if n < 0 then -n else n;
    NumeralIff(digits, m);
    NumeralIff(s, m);
    if IsNumeral(s, m) {
      NumeralDigits(s, m);
      assert s[0] in s;
    }
  }

  // strconv.ParseUint(s, 10, 32).

  const UINT32_LIMIT := 0x1_0000_0000

  function ParseUint32(s: string): (r: Option<nat>)
    ensures r.Some? ==> r.value < UINT32_LIMIT
  {
    var v := DigitsIn(s, 10);
    if s == "" || v == None || v.value >= UINT32_LIMIT then None else v
  }

  lemma Uint32RoundTrip(n: nat)
    ensures ParseUint32(PrintNat(n)) == if n < UINT32_LIMIT then Some(n) else None
  {
    PrintedDigits(n);
  }

  /** ParseUint accepts exactly the numerals below 2^32. */
  lemma Uint32Iff(s: string, n: nat)
    ensures ParseUint32(s) == Some(n) <==> n < 0x1_0000_0000 && IsNumeral(s, n)
  {
    NumeralIff(s, n);
  }

  // strconv.ParseInt(s, 0, 64): the base is told by a prefix, and underscores may separate digits.

  const INT64_LIMIT := 0x8000_0000_0000_0000

  predicate IsInt64(n: int) {
    -INT64_LIMIT <= n < INT64_LIMIT
  }

  /** The base told by the prefix, and what is left to read. */
  function BaseOf(s: string): (nat, string) {
    if s == "" || s[0] != '0' then (10, s)
    else if |s| >= 3 && Lower(s[1]) == 'b' then (2, s[2..])
    else if |s| >= 3 && Lower(s[1]) == 'o' then (8, s[2..])
    else if |s| >= 3 && Lower(s[1]) == 'x' then (16, s[2..])
    else (8, s[1..])
  }

  function WithoutUnderscores(s: string): string {
    if s == "" then "" else (if s[0] == '_' then "" else [s[0]]) + WithoutUnderscores(s[1..])
  }

  datatype Previous = Beginning | Digit | Underscore | Other

  /** Underscores must stand between digits; a base prefix counts as a digit. */
  predicate UnderscoresOk(s: string, hex: bool, previous: Previous) {
    if s == "" then previous != Underscore
    else if IsDigit(s[0]) || (hex && 'a' <= Lower(s[0]) <= 'f') then UnderscoresOk(s[1..], hex, Digit)
    else if s[0] == '_' then previous == Digit && UnderscoresOk(s[1..], hex, Underscore)
    else previous != Underscore && UnderscoresOk(s[1..], hex, Other)
  }

  predicate UnderscoreOk(s: string) {
    if |s| >= 2 && s[0] == '0' && Lower(s[1]) in "box" then UnderscoresOk(s[2..], Lower(s[1]) == 'x', Digit)
    else UnderscoresOk(s, false, Beginning)
  }

  function ParseGoUint(s: string): Option<nat> {
    var (base, body) := BaseOf(s);
    var v := DigitsIn(WithoutUnderscores(body), base);
    if s == "" || v == None || ('_' in body && !UnderscoreOk(s)) then None else v
  }

  function ParseGoInt(s: string): (r: Option<int>)
    ensures r.Some? ==> IsInt64(r.value)
  {
    var (negative, rest) := Signed(s);
    var magnitude := ParseGoUint(rest);
    if magnitude == None then None
    else
      var n: int := if negative then -(magnitude.value as int) else magnitude.value;
      if IsInt64(n) then Some(n) else None
  }

  lemma {:induction false} NoUnderscores(s: string)
    requires '_' !in s
    ensures WithoutUnderscores(s) == s
  {
    if s != "" {
      NoUnderscores(s[1..]);
      assert s == [s[0]] + s[1..];
    }
  }

  lemma GoUintRoundTrip(n: nat)
    ensures ParseGoUint(PrintNat(n)) == Some(n)
  {
    PrintedDigits(n);
    var s := PrintNat(n);
    assert '_' !in s;
    NoUnderscores(BaseOf(s).1);
    if n == 0 {
      assert BaseOf(s) == (8, "");
    }
  }

  /** What %d prints, Key.Int reads back, for every int64. */
  lemma GoIntRoundTrip(n: int)
    ensures ParseGoInt(PrintInt(n)) == if IsInt64(n) then Some(n) else None
  {
    SignedPrint(n);
    GoUintRoundTrip(if n < 0 then -n else n);
  }

  /** A printed integer is digits with at most a sign in front, and ends in a digit. */
  lemma PrintIntCharacters(n: int)
    ensures PrintInt(n) != "" && forall c <- PrintInt(n) :: c == '-' || IsDigit(c)
    ensures IsDigit(PrintInt(n)[|PrintInt(n)| - 1])
  {
    PrintedDigits(if n < 0 then -n else n);
    var s := PrintNat(if n < 0 then -n else n);
    assert s[|s| - 1] in s;
  }
}
