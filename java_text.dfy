/**
 * The few `java.lang.String` operations the backend relies on, with the
 * semantics of the JDK: `toLowerCase`, `lastIndexOf`, `startsWith`,
 * `endsWith`, `contains`, `split` with a one-character separator, `trim`,
 * `replaceAll("\\s+", " ")` and `Integer.parseInt` / `Long.parseLong`.
 * Case mapping and digits are modelled on ASCII only.
 */
module JavaText {
  import opened Wrappers

  // ---------------------------------------------------------------- case

  function LowerChar(c: char): (r: char)
    ensures r != '.' || c == '.'
  {
    if 'A' <= c <= 'Z' then (c as int + 32) as char else c
  }

  /** `String.toLowerCase()` restricted to ASCII letters. */
  function ToLower(s: string): (r: string)
    ensures |r| == |s|
    ensures forall i :: 0 <= i < |s| ==> r[i] == LowerChar(s[i])
  {
    seq(|s|, i requires 0 <= i < |s| => LowerChar(s[i]))
  }

  lemma ToLowerIdempotent(s: string)
    ensures ToLower(ToLower(s)) == ToLower(s)
  {
  }

  /** Text without capital letters is its own lower case. */
  lemma ToLowerFixed(s: string)
    requires forall i :: 0 <= i < |s| ==> !('A' <= s[i] <= 'Z')
    ensures ToLower(s) == s
  {
  }

  lemma ToLowerSlice(s: string, i: nat)
    requires i <= |s|
    ensures ToLower(s[i..]) == ToLower(s)[i..]
  {
  }

  // ------------------------------------------------------------- search

  /** `s.lastIndexOf(c)`: the last position holding `c`, or -1. */
  function LastIndexOf(s: string, c: char): (i: int)
    ensures -1 <= i < |s|
    ensures i >= 0 ==> s[i] == c
    ensures forall j :: i < j < |s| ==> s[j] != c
  {
    if |s| == 0 then -1
    else if s[|s| - 1] == c then |s| - 1
    else LastIndexOf(s[..|s| - 1], c)
  }

  predicate StartsWith(s: string, prefix: string) {
    |prefix| <= |s| && s[..|prefix|] == prefix
  }

  predicate EndsWith(s: string, suffix: string) {
    |suffix| <= |s| && s[|s| - |suffix|..] == suffix
  }

  /** `s.contains(t)`: `t` starts at some position of `s`. */
  predicate Contains(s: string, t: string)
    decreases |s|
  {
    StartsWith(s, t) || (|s| > 0 && Contains(s[1..], t))
  }

  // -------------------------------------------------------------- split

  /** Every piece of `s` between occurrences of `sep`, empty pieces included. */
  function Pieces(s: string, sep: char): (ps: seq<string>)
    ensures |ps| >= 1
    ensures forall k :: 0 <= k < |ps| ==> sep !in ps[k]
  {
    if |s| == 0 then [""]
    else if s[0] == sep then [""] + Pieces(s[1..], sep)
    else
      var rest := Pieces(s[1..], sep);
      [[s[0]] + rest[0]] + rest[1..]
  }

  function Join(ps: seq<string>, sep: char): string
    requires |ps| >= 1
  {
    if |ps| == 1 then ps[0] else ps[0] + [sep] + Join(ps[1..], sep)
  }

  /** Prepending a character to the first piece prepends it to the joined string. */
  lemma JoinConsFirst(c: char, ps: seq<string>, sep: char)
    requires |ps| >= 1
    ensures Join([[c] + ps[0]] + ps[1..], sep) == [c] + Join(ps, sep)
  {
    var qs := [[c] + ps[0]] + ps[1..];
    assert qs[1..] == ps[1..];
  }

  /** Joining the pieces back with the separator gives the string again. */
  lemma {:induction false} JoinPieces(s: string, sep: char)
    ensures Join(Pieces(s, sep), sep) == s
  {
    if |s| == 0 {
    } else if s[0] == sep {
      JoinPieces(s[1..], sep);
      assert ([""] + Pieces(s[1..], sep))[1..] == Pieces(s[1..], sep);
      assert s == [sep] + s[1..];
    } else {
      JoinPieces(s[1..], sep);
      JoinConsFirst(s[0], Pieces(s[1..], sep), sep);
      assert s == [s[0]] + s[1..];
    }
  }

  /** A string without the separator is a single piece. */
  lemma {:induction false} PiecesWithoutSeparator(s: string, sep: char)
    requires sep !in s
    ensures Pieces(s, sep) == [s]
  {
    if |s| > 0 {
      PiecesWithoutSeparator(s[1..], sep);
      assert s == [s[0]] + s[1..];
    }
  }

  /** The first occurrence of the separator ends the first piece. */
  lemma {:induction false} PiecesAtFirstSeparator(a: string, sep: char, b: string)
    requires sep !in a
    ensures Pieces(a + [sep] + b, sep) == [a] + Pieces(b, sep)
  {
    if |a| > 0 {
      PiecesAtFirstSeparator(a[1..], sep, b);
      assert (a + [sep] + b)[1..] == a[1..] + [sep] + b;
      assert a == [a[0]] + a[1..];
    } else {
      assert (a + [sep] + b)[1..] == b;
    }
  }

  function DropTrailingEmpty(ps: seq<string>): (r: seq<string>)
    ensures |r| <= |ps| && r == ps[..|r|]
    ensures r == [] || r[|r| - 1] != ""
    ensures forall k :: |r| <= k < |ps| ==> ps[k] == ""
  {
    if |ps| > 0 && ps[|ps| - 1] == "" then DropTrailingEmpty(ps[..|ps| - 1]) else ps
  }

  /**
   * `s.split(String.valueOf(sep))` with limit 0, for a separator that is not a
   * regular-expression metacharacter: when `sep` does not occur the result is
   * `[s]`; otherwise it is the pieces with the trailing empty ones removed.
   */
  function Split(s: string, sep: char): (r: seq<string>)
    ensures forall k :: 0 <= k < |r| ==> sep !in r[k]
  {
    if sep !in s then [s] else DropTrailingEmpty(Pieces(s, sep))
  }

  /** Splitting "a<sep>b" with neither part holding the separator, and b non-empty, gives [a, b]. */
  lemma SplitAround(a: string, sep: char, b: string)
    requires sep !in a && sep !in b && b != ""
    ensures Split(a + [sep] + b, sep) == [a, b]
  {
    PiecesAtFirstSeparator(a, sep, b);
    PiecesWithoutSeparator(b, sep);
    assert (a + [sep] + b)[|a|] == sep;
  }

  // --------------------------------------------------------------- trim

  /** `String.trim()` removes every leading and trailing char up to U+0020. */
  function TrimStart(s: string): (r: string)
    ensures |r| <= |s| && r == s[|s| - |r|..]
    ensures r == [] || r[0] > ' '
  {
    if |s| > 0 && s[0] <= ' ' then TrimStart(s[1..]) else s
  }

  function TrimEnd(s: string): (r: string)
    ensures |r| <= |s| && r == s[..|r|]
    ensures r == [] || r[|r| - 1] > ' '
    ensures r != [] && s[0] > ' ' ==> r[0] > ' '
  {
    if |s| > 0 && s[|s| - 1] <= ' ' then TrimEnd(s[..|s| - 1]) else s
  }

  function Trim(s: string): (r: string)
    ensures |r| <= |s|
    ensures r == [] || (r[0] > ' ' && r[|r| - 1] > ' ')
  {
    TrimEnd(TrimStart(s))
  }

  /** A trimmed string is a contiguous part of the original. */
  lemma TrimIsSlice(s: string) returns (i: nat, j: nat)
    ensures i <= j <= |s| && Trim(s) == s[i..j]
  {
    var t := TrimStart(s);
    i := |s| - |t|;
    j := i + |TrimEnd(t)|;
    assert t == s[i..];
  }

  /** A string with no char up to U+0020 is its own trim. */
  lemma TrimUnchanged(s: string)
    requires forall k :: 0 <= k < |s| ==> s[k] > ' '
    ensures Trim(s) == s
  {
    assert TrimStart(s) == s;
  }

  /** A line that starts and ends with visible characters loses only its line break. */
  lemma TrimNewline(line: string)
    requires line != [] && line[0] > ' ' && line[|line| - 1] > ' '
    ensures Trim(line + "\n") == line
  {
    var file := line + "\n";
    assert TrimStart(file) == file;
    assert file[..|file| - 1] == line;
    assert TrimEnd(line) == line;
  }

  // --------------------------------------------------- regex \s collapse

  /** The class `\s` of `java.util.regex`: space, \t, \n, \x0B, \f, \r. */
  predicate IsRegexSpace(c: char) {
    c == ' ' || c == '\t' || c == '\n' || c == '\U{000B}' || c == '\U{000C}' || c == '\r'
  }

  predicate NoSpaceRun(s: string) {
    forall i :: 0 <= i < |s| - 1 ==> !(IsRegexSpace(s[i]) && IsRegexSpace(s[i + 1]))
  }

  function SkipSpaces(s: string): (r: string)
    ensures |r| <= |s| && r == s[|s| - |r|..]
    ensures r == [] || !IsRegexSpace(r[0])
  {
    if |s| > 0 && IsRegexSpace(s[0]) then SkipSpaces(s[1..]) else s
  }

  /** `s.replaceAll("\\s+", " ")`: every maximal run of `\s` becomes one space. */
  function CollapseSpaces(s: string): (r: string)
    ensures |r| <= |s|
    ensures |s| > 0 ==> |r| > 0 && (IsRegexSpace(r[0]) <==> IsRegexSpace(s[0]))
    ensures NoSpaceRun(r)
    ensures forall i :: 0 <= i < |r| && IsRegexSpace(r[i]) ==> r[i] == ' '
    decreases |s|
  {
    if |s| == 0 then ""
    else if IsRegexSpace(s[0]) then " " + CollapseSpaces(SkipSpaces(s[1..]))
    else [s[0]] + CollapseSpaces(s[1..])
  }

  // ------------------------------------------------------------ numbers

  predicate IsDigit(c: char) {
    '0' <= c <= '9'
  }

  predicate AllDigits(s: string) {
    forall i :: 0 <= i < |s| ==> IsDigit(s[i])
  }

  function DigitsValue(s: string): nat
    requires AllDigits(s)
  {
    if |s| == 0 then 0 else DigitsValue(s[..|s| - 1]) * 10 + (s[|s| - 1] as int - '0' as int)
  }

  /**
   * `Integer.parseInt` (lo, hi = the int range) and `Long.parseLong` (the long
   * range): an optional '+' or '-', then at least one digit, and the value in
   * range; anything else is a `NumberFormatException`, here `None`.
   */
  function ParseInteger(s: string, lo: int, hi: int): Option<int> {
    if |s| == 0 then None
    else
      var signed := s[0] == '-' || s[0] == '+';
      var digits := if signed then s[1..] else s;
      if |digits| == 0 || !AllDigits(digits) then None
      else
        var v: int := if s[0] == '-' then -(DigitsValue(digits) as int) else DigitsValue(digits);
        if lo <= v <= hi then Some(v) else None
  }

  const INT_MIN: int := -0x8000_0000
  const INT_MAX: int := 0x7FFF_FFFF
  const LONG_MIN: int := -0x8000_0000_0000_0000
  const LONG_MAX: int := 0x7FFF_FFFF_FFFF_FFFF

  /** The decimal digits of a natural number, as `String.valueOf` writes them. */
  function NatToString(n: nat): (s: string)
    ensures |s| > 0 && AllDigits(s)
  {
    if n < 10 then [('0' as int + n) as char]
    else NatToString(n / 10) + [('0' as int + n % 10) as char]
  }

  /** `String.valueOf(int)`: '-' and the digits for a negative value. */
  function IntToString(n: int): string {
    if n < 0 then "-" + NatToString(-n) else NatToString(n)
  }

  lemma {:induction false} NatToStringValue(n: nat)
    ensures DigitsValue(NatToString(n)) == n
  {
    if n >= 10 {
      NatToStringValue(n / 10);
      var s := NatToString(n);
      assert s[..|s| - 1] == NatToString(n / 10);
    }
  }

  /** Parsing what `String.valueOf` wrote gives the number back. */
  lemma ParseIntegerRoundTrip(n: int, lo: int, hi: int)
    requires lo <= n <= hi
    ensures ParseInteger(IntToString(n), lo, hi) == Some(n)
  {
    var s := IntToString(n);
    if n < 0 {
      var digits := NatToString(-n);
      NatToStringValue(-n);
      assert s[0] == '-' && s[1..] == digits;
      assert ParseInteger(s, lo, hi) == if lo <= -(DigitsValue(digits) as int) <= hi then Some(-(DigitsValue(digits) as int)) else None;
    } else {
      NatToStringValue(n);
      assert IsDigit(s[0]);
      assert ParseInteger(s, lo, hi) == if lo <= DigitsValue(s) <= hi then Some(DigitsValue(s)) else None;
    }
  }
}
