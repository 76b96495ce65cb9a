/** The java.lang.String operations the backend relies on: case-insensitive
    comparison, trim, split and join on a delimiter, and decimal long parsing. */
module Text {
  import opened Wrappers
  import opened Numbers

  const DELIMITER: char := ','

  // ---------------------------------------------------------------------------
  // Case-insensitive comparison (equalsIgnoreCase against ASCII tag names)
  // ---------------------------------------------------------------------------

  const KELVIN_SIGN: char := '\U{212A}'

  /** The case fold for comparisons against tag names spelt in ASCII capitals.
      Besides A-Z, the only character Java's equalsIgnoreCase matches to one
      of the letters of GOOD or UNKNOWN is the Kelvin sign, whose lower case
      is 'k'. (Dotless and dotted I and the long s also fold to ASCII, but no
      tag name of the core contains I or S.) */
  function LowerChar(c: char): char {
    if 'A' <= c <= 'Z' then (c as int + 32) as char
    else if c == KELVIN_SIGN then 'k'
    else c
  }

  function ToLower(s: string): (r: string)
    ensures |r| == |s|
    ensures forall i :: 0 <= i < |s| ==> r[i] == LowerChar(s[i])
  {
    if s == [] then [] else [LowerChar(s[0])] + ToLower(s[1..])
  }

  predicate EqualsIgnoreCase(a: string, b: string) {
    ToLower(a) == ToLower(b)
  }

  /** A tag equal to "GOOD" ignoring case ("Good" in the live cache, "GOOD" in
      log ingestion), compared letter by letter. */
  predicate IsGood(tag: string) {
    && |tag| == 4
    && LowerChar(tag[0]) == 'g' && LowerChar(tag[1]) == 'o' && LowerChar(tag[2]) == 'o'
    && LowerChar(tag[3]) == 'd'
  }

  /** A tag equal to "UNKNOWN" ignoring case, compared letter by letter. */
  predicate IsUnknown(tag: string) {
    && |tag| == 7
    && LowerChar(tag[0]) == 'u' && LowerChar(tag[1]) == 'n' && LowerChar(tag[2]) == 'k'
    && LowerChar(tag[3]) == 'n' && LowerChar(tag[4]) == 'o' && LowerChar(tag[5]) == 'w'
    && LowerChar(tag[6]) == 'n'
  }

  /** The letter-by-letter test is equalsIgnoreCase against "GOOD". */
  lemma IsGoodIgnoresCase(tag: string)
    ensures IsGood(tag) <==> EqualsIgnoreCase(tag, "GOOD")
  {
    assert ToLower("GOOD") == "good";
    if |tag| == 4 && IsGood(tag) {
      assert ToLower(tag) == "good";
    }
  }

  /** The letter-by-letter test is equalsIgnoreCase against "UNKNOWN". */
  lemma IsUnknownIgnoresCase(tag: string)
    ensures IsUnknown(tag) <==> EqualsIgnoreCase(tag, "UNKNOWN")
  {
    assert ToLower("UNKNOWN") == "unknown";
    if |tag| == 7 && IsUnknown(tag) {
      assert ToLower(tag) == "unknown";
    }
  }

  /** A tag that is neither GOOD nor UNKNOWN, ignoring case. */
  predicate IsWarning(tag: string) { !IsGood(tag) && !IsUnknown(tag) }

  /** "UN\u212ANOWN" equals "UNKNOWN" ignoring case in Java, so it is no warning. */
  lemma KelvinSignUnknown()
    ensures IsUnknown("UN" + [KELVIN_SIGN] + "NOWN") && !IsWarning("UN" + [KELVIN_SIGN] + "NOWN")
    ensures !IsUnknown("UNQNOWN") && IsWarning("UNQNOWN")
  {
  }

  /** Tags equal to "GOOD" ignoring case. */
  function GoodTagCount(tags: seq<string>): (n: nat)
    ensures n <= |tags|
    ensures n == 0 <==> forall i :: 0 <= i < |tags| ==> !IsGood(tags[i])
  {
    if tags == [] then 0
    else GoodTagCount(tags[..|tags| - 1]) + (if IsGood(tags[|tags| - 1]) then 1 else 0)
  }

  /** Tags that are neither "GOOD" nor "UNKNOWN", ignoring case. */
  function WarningTagCount(tags: seq<string>): (n: nat)
    ensures n <= |tags|
  {
    if tags == [] then 0
    else WarningTagCount(tags[..|tags| - 1]) + (if IsWarning(tags[|tags| - 1]) then 1 else 0)
  }

  /** No tag is counted both as good and as a warning. */
  lemma {:induction false} TagCountsBounded(tags: seq<string>)
    ensures GoodTagCount(tags) + WarningTagCount(tags) <= |tags|
  {
    if tags != [] {
      TagCountsBounded(tags[..|tags| - 1]);
    }
  }

  /** Tags equal to `key`, exactly (case-sensitive, as a map key). */
  function Occurrences(tags: seq<string>, key: string): (n: nat)
    ensures n <= |tags|
    ensures n == 0 <==> key !in tags
  {
    if tags == [] then 0
    else Occurrences(tags[..|tags| - 1], key) + (if tags[|tags| - 1] == key then 1 else 0)
  }

  // ---------------------------------------------------------------------------
  // String.trim(): strips every leading and trailing character <= U+0020
  // ---------------------------------------------------------------------------

  predicate IsTrimmable(c: char) { c <= ' ' }

  predicate IsTrimmed(s: string) {
    s == [] || (!IsTrimmable(s[0]) && !IsTrimmable(s[|s| - 1]))
  }

  function TrimStart(s: string): (r: string)
    ensures |r| <= |s| && r == s[|s| - |r|..]
    ensures r == [] || !IsTrimmable(r[0])
    ensures forall i :: 0 <= i < |s| - |r| ==> IsTrimmable(s[i])
  {
    if s == [] || !IsTrimmable(s[0]) then s else TrimStart(s[1..])
  }

  function TrimEnd(s: string): (r: string)
    ensures |r| <= |s| && r == s[..|r|]
    ensures r == [] || !IsTrimmable(r[|r| - 1])
    ensures forall i :: |r| <= i < |s| ==> IsTrimmable(s[i])
  {
    if s == [] || !IsTrimmable(s[|s| - 1]) then s else TrimEnd(s[..|s| - 1])
  }

  function Trim(s: string): (r: string)
    ensures IsTrimmed(r)
  {
    TrimEnd(TrimStart(s))
  }

  /** Trimming only removes characters, so it keeps a string comma-free. */
  lemma TrimKeepsCommaFree(s: string)
    requires DELIMITER !in s
    ensures DELIMITER !in Trim(s)
  {
    var t := TrimStart(s);
    assert forall i :: 0 <= i < |t| ==> t[i] == s[|s| - |t| + i];
    var r := TrimEnd(t);
    assert forall i :: 0 <= i < |r| ==> r[i] == t[i];
  }

  /** Trim leaves an already trimmed string as it is. */
  lemma TrimOfTrimmed(s: string)
    requires IsTrimmed(s)
    ensures Trim(s) == s
  {
  }

  /** Trim yields "" exactly when every character is trimmable. */
  lemma TrimEmptyIff(s: string)
    ensures Trim(s) == [] <==> forall i :: 0 <= i < |s| ==> IsTrimmable(s[i])
  {
    var t := TrimStart(s);
    assert forall i :: 0 <= i < |t| ==> t[i] == s[|s| - |t| + i];
  }

  // ---------------------------------------------------------------------------
  // String.join(",", xs) and String.split(",")
  // ---------------------------------------------------------------------------

  function Join(xs: seq<string>): string {
    if |xs| == 0 then ""
    else if |xs| == 1 then xs[0]
    else xs[0] + [DELIMITER] + Join(xs[1..])
  }

  /** Every piece between delimiters, empty pieces included. */
  function SplitAll(s: string): (r: seq<string>)
    ensures |r| >= 1
    ensures forall i :: 0 <= i < |r| ==> DELIMITER !in r[i]
  {
    if s == [] then [""]
    else if s[0] == DELIMITER then [""] + SplitAll(s[1..])
    else
      var t := SplitAll(s[1..]);
      [[s[0]] + t[0]] + t[1..]
  }

  function DropTrailingEmpty(xs: seq<string>): (r: seq<string>)
    ensures |r| <= |xs| && r == xs[..|r|]
    ensures r == [] || r[|r| - 1] != ""
    ensures forall i :: |r| <= i < |xs| ==> xs[i] == ""
  {
    if |xs| > 0 && xs[|xs| - 1] == "" then DropTrailingEmpty(xs[..|xs| - 1]) else xs
  }

  /** String.split(",") with limit 0: a string without the delimiter comes back
      whole, otherwise the pieces with trailing empty pieces removed. */
  function Split(s: string): (r: seq<string>)
    ensures forall i :: 0 <= i < |r| ==> DELIMITER !in r[i]
  {
    if DELIMITER !in s then [s] else DropTrailingEmpty(SplitAll(s))
  }

  predicate CommaFree(xs: seq<string>) {
    forall i :: 0 <= i < |xs| ==> DELIMITER !in xs[i]
  }

  /** Splitting a comma-free prefix glued to a delimited rest. */
  lemma {:induction false} SplitAllPrefix(a: string, rest: string)
    requires DELIMITER !in a
    ensures SplitAll(a + rest) == [a + SplitAll(rest)[0]] + SplitAll(rest)[1..]
  {
    if a != [] {
      assert (a + rest)[0] == a[0];
      assert (a + rest)[1..] == a[1..] + rest;
      SplitAllPrefix(a[1..], rest);
      assert [a[0]] + (a[1..] + SplitAll(rest)[0]) == a + SplitAll(rest)[0];
    } else {
      var t := SplitAll(rest);
      assert a + rest == rest;
      assert a + t[0] == t[0];
      assert t == [t[0]] + t[1..];
    }
  }

  /** SplitAll undoes Join for comma-free pieces. */
  lemma {:induction false} SplitAllJoin(xs: seq<string>)
    requires |xs| > 0 && CommaFree(xs)
    ensures SplitAll(Join(xs)) == xs
  {
    if |xs| == 1 {
      SplitAllPrefix(xs[0], "");
      assert xs[0] + "" == xs[0];
    } else {
      var rest := Join(xs[1..]);
      assert Join(xs) == xs[0] + ([DELIMITER] + rest);
      SplitAllPrefix(xs[0], [DELIMITER] + rest);
      assert ([DELIMITER] + rest)[0] == DELIMITER;
      assert ([DELIMITER] + rest)[1..] == rest;
      assert SplitAll([DELIMITER] + rest) == [""] + SplitAll(rest);
      SplitAllJoin(xs[1..]);
      assert xs[0] + "" == xs[0];
      assert xs == [xs[0]] + xs[1..];
    }
  }

  lemma {:induction false} JoinCommaFree(xs: seq<string>)
    requires CommaFree(xs) && |xs| <= 1
    ensures DELIMITER !in Join(xs)
  {
  }

  lemma {:induction false} JoinHasDelimiter(xs: seq<string>)
    requires |xs| >= 2
    ensures DELIMITER in Join(xs)
  {
    assert Join(xs)[|xs[0]|] == DELIMITER;
  }

  /** Split undoes Join for non-empty, comma-free pieces whose last piece is not empty. */
  lemma SplitJoin(xs: seq<string>)
    requires |xs| > 0 && CommaFree(xs) && xs[|xs| - 1] != ""
    ensures Split(Join(xs)) == xs
  {
    if |xs| == 1 {
      JoinCommaFree(xs);
    } else {
      JoinHasDelimiter(xs);
      SplitAllJoin(xs);
    }
  }

  /** Join undoes SplitAll on every string. */
  lemma {:induction false} JoinSplitAll(s: string)
    ensures Join(SplitAll(s)) == s
  {
    if s != [] {
      JoinSplitAll(s[1..]);
      var t := SplitAll(s[1..]);
      if s[0] == DELIMITER {
        assert SplitAll(s) == [""] + t;
        assert ([""] + t)[1..] == t;
        assert s == [s[0]] + s[1..];
      } else {
        var r := [[s[0]] + t[0]] + t[1..];
        if |t| == 1 {
          assert t == [t[0]];
        } else {
          assert t == [t[0]] + t[1..];
          assert Join(t) == t[0] + [DELIMITER] + Join(t[1..]);
          assert r[1..] == t[1..];
        }
        assert s == [s[0]] + s[1..];
      }
    }
  }

  // ---------------------------------------------------------------------------
  // Long.parseLong and Long.toString (ASCII digits, radix 10)
  // ---------------------------------------------------------------------------

  predicate IsDigit(c: char) { '0' <= c <= '9' }

  predicate AllDigits(s: string) { forall i :: 0 <= i < |s| ==> IsDigit(s[i]) }

  function DigitValue(c: char): nat requires IsDigit(c) { c as int - '0' as int }

  function DigitChar(n: nat): char requires n < 10 { ('0' as int + n) as char }

  function DigitsValue(s: string): nat
    requires AllDigits(s)
  {
    if s == [] then 0 else DigitsValue(s[..|s| - 1]) * 10 + DigitValue(s[|s| - 1])
  }

  function NatToDecimal(n: nat): (r: string)
    ensures |r| > 0 && AllDigits(r)
  {
    if n < 10 then [DigitChar(n)] else NatToDecimal(n / 10) + [DigitChar(n % 10)]
  }

  /** Long.toString(n). */
  function ToDecimal(n: int): string {
    if n < 0 then "-" + NatToDecimal(-n) else NatToDecimal(n)
  }

  /** Long.parseLong(s): None where Java throws NumberFormatException (empty,
      a lone sign, a non-digit, or a value outside the long range). */
  function ParseLong(s: string): (r: Option<int>)
    ensures r.Some? ==> InLong(r.value)
  {
    if |s| == 0 then None
    else if s[0] == '-' || s[0] == '+' then
      if |s| == 1 || !AllDigits(s[1..]) then None
      else
        var v: int := if s[0] == '-' then 0 - DigitsValue(s[1..]) as int else DigitsValue(s[1..]);
        if InLong(v) then Some(v) else None
    else if !AllDigits(s) then None
    else
      var v := DigitsValue(s);
      if InLong(v) then Some(v) else None
  }

  lemma {:induction false} DigitsOfDecimal(n: nat)
    ensures DigitsValue(NatToDecimal(n)) == n
  {
    if n >= 10 {
      DigitsOfDecimal(n / 10);
      var s := NatToDecimal(n);
      assert s[..|s| - 1] == NatToDecimal(n / 10);
    }
  }

  /** Parsing what toString printed gives the number back. */
  lemma ParseDecimal(n: int)
    requires InLong(n)
    ensures ParseLong(ToDecimal(n)) == Some(n)
  {
    if n < 0 {
      DigitsOfDecimal(-n);
      assert ToDecimal(n)[1..] == NatToDecimal(-n);
    } else {
      DigitsOfDecimal(n);
    }
  }
}
