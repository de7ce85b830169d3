/**
 * String helpers with the semantics of the .NET calls the source makes:
 * `StartsWith`, `string.Split(char)`, `int.ToString()` and `int.Parse(string)`.
 */
module Text {
  import opened Wrappers

  predicate StartsWith(s: string, prefix: string) {
    |prefix| <= |s| && s[..|prefix|] == prefix
  }

  // ---------------------------------------------------------------------------
  // Splitting on one separator character (.NET `string.Split`)
  // ---------------------------------------------------------------------------

  /** The pieces of `s` between occurrences of `sep`; like .NET's Split it never
      returns zero pieces (`""` splits to `[""]`). */
  function Split(s: string, sep: char): (r: seq<string>)
    ensures |r| >= 1
    ensures forall i :: 0 <= i < |r| ==> sep !in r[i]
  {
    if |s| == 0 then [""]
    else
      var rest := Split(s[1..], sep);
      if s[0] == sep then [""] + rest
      else [[s[0]] + rest[0]] + rest[1..]
  }

  /** The pieces glued back together with the separator between them. */
  function Join(words: seq<string>, sep: char): string
    requires |words| >= 1
  {
    if |words| == 1 then words[0] else words[0] + [sep] + Join(words[1..], sep)
  }

  /** Splitting loses nothing: joining the pieces gives the original string back. */
  lemma {:induction false} JoinSplit(s: string, sep: char)
    ensures Join(Split(s, sep), sep) == s
  {
    if |s| > 0 {
      var rest := Split(s[1..], sep);
      JoinSplit(s[1..], sep);
      if s[0] == sep {
        assert ([""] + rest)[1..] == rest;
      } else {
        var r := [[s[0]] + rest[0]] + rest[1..];
        if |rest| > 1 {
          assert r[1..] == rest[1..];
        }
        assert Join(r, sep) == [s[0]] + Join(rest, sep);
        assert [s[0]] + s[1..] == s;
      }
    }
  }

  /** Splitting a separator-free word followed by more text keeps the word at the
      front of the first piece. */
  lemma {:induction false} SplitAfterWord(w: string, tail: string, sep: char)
    requires sep !in w
    ensures Split(w + tail, sep) == [w + Split(tail, sep)[0]] + Split(tail, sep)[1..]
  {
    if |w| > 0 {
      SplitAfterWord(w[1..], tail, sep);
      assert (w + tail)[1..] == w[1..] + tail;
      assert (w + tail)[0] == w[0];
      assert [w[0]] + (w[1..] + Split(tail, sep)[0]) == w + Split(tail, sep)[0];
    } else {
      var r := Split(tail, sep);
      assert w + tail == tail && w + r[0] == r[0];
      assert r == [r[0]] + r[1..];
    }
  }

  /** Joining separator-free words and splitting again gives the same words. */
  lemma {:induction false} SplitJoin(words: seq<string>, sep: char)
    requires |words| >= 1
    requires forall i :: 0 <= i < |words| ==> sep !in words[i]
    ensures Split(Join(words, sep), sep) == words
  {
    if |words| == 1 {
      SplitAfterWord(words[0], "", sep);
      assert words[0] + "" == words[0];
    } else {
      var tail := Join(words[1..], sep);
      SplitJoin(words[1..], sep);
      assert words[0] + [sep] + tail == words[0] + ([sep] + tail);
      SplitAfterWord(words[0], [sep] + tail, sep);
      assert Split([sep] + tail, sep) == [""] + words[1..];
      assert words[0] + "" == words[0];
    }
  }

  // ---------------------------------------------------------------------------
  // Decimal integers (.NET `int.ToString()` and `int.Parse(string)`)
  // ---------------------------------------------------------------------------

  const Int32Min: int := -0x8000_0000
  const Int32Max: int := 0x7fff_ffff

  predicate IsInt32(n: int) {
    Int32Min <= n <= Int32Max
  }

  predicate IsDigit(c: char) {
    '0' <= c <= '9'
  }

  predicate AllDigits(s: string) {
    forall i :: 0 <= i < |s| ==> IsDigit(s[i])
  }

  function DigitChar(d: nat): (c: char)
    requires d < 10
    ensures IsDigit(c)
  {
    ('0' as int + d) as char
  }

  function DigitValue(c: char): nat
    requires IsDigit(c)
  {
    c as int - '0' as int
  }

  /** The value of a string of decimal digits, most significant first. */
  function DigitsValue(s: string): nat
    requires AllDigits(s)
    decreases |s|
  {
    if |s| == 0 then 0 else DigitsValue(s[..|s| - 1]) * 10 + DigitValue(s[|s| - 1])
  }

  /** The shortest decimal spelling of a natural number. */
  function NatToString(n: nat): (r: string)
    ensures |r| >= 1 && AllDigits(r)
  {
    if n < 10 then [DigitChar(n)] else NatToString(n / 10) + [DigitChar(n % 10)]
  }

  /** `int.ToString()`: a minus sign for negative values, then the digits. */
  function IntToString(n: int): string {
    if n < 0 then "-" + NatToString(-n) else NatToString(n)
  }

  lemma {:induction false} NatToStringValue(n: nat)
    ensures DigitsValue(NatToString(n)) == n
  {
    if n >= 10 {
      var s := NatToString(n);
      NatToStringValue(n / 10);
      assert s[..|s| - 1] == NatToString(n / 10);
    }
  }

  /** The characters `int.Parse` skips at either end (.NET white space). */
  predicate IsWhite(c: char) {
    c == ' ' || '\t' <= c <= '\r'
  }

  function TrimStartWhite(s: string): string {
    if |s| > 0 && IsWhite(s[0]) then TrimStartWhite(s[1..]) else s
  }

  function TrimEndWhite(s: string): string {
    if |s| > 0 && IsWhite(s[|s| - 1]) then TrimEndWhite(s[..|s| - 1]) else s
  }

  /** The two exceptions `int.Parse` throws. */
  datatype IntParseError = FormatError | OverflowError

  /** The value of `s` when it is all decimal digits, read from the last
      digit back. */
  function DigitsOf(s: string): Option<nat>
    decreases |s|
  {
    if |s| == 0 then Some(0)
    else if !IsDigit(s[|s| - 1]) then None
    else
      match DigitsOf(s[..|s| - 1])
      case None => None
      case Some(v) => Some(v * 10 + DigitValue(s[|s| - 1]))
  }

  lemma {:induction false} DigitsOfValue(s: string)
    ensures DigitsOf(s).Some? <==> AllDigits(s)
    ensures DigitsOf(s).Some? ==> DigitsOf(s).value == DigitsValue(s)
    decreases |s|
  {
    if |s| > 0 {
      var p := s[..|s| - 1];
      DigitsOfValue(p);
      if AllDigits(s) {
        assert AllDigits(p);
      } else if AllDigits(p) {
        assert !IsDigit(s[|s| - 1]);
      }
    }
  }

  /** `int.Parse(string)`: optional white space, an optional sign, at least one
      digit, optional white space; values outside 32 bits overflow. */
  function ParseInt32(s: string): (r: Result<int, IntParseError>)
    ensures r.Success? ==> IsInt32(r.value)
  {
    var t := TrimEndWhite(TrimStartWhite(s));
    var signed := |t| > 0 && (t[0] == '-' || t[0] == '+');
    var digits := if signed then t[1..] else t;
    if |digits| == 0 then Failure(FormatError)
    else
      match DigitsOf(digits)
      case None => Failure(FormatError)
      case Some(d) =>
        var v: int := if signed && t[0] == '-' then 0 - d as int else d;
        if IsInt32(v) then Success(v) else Failure(OverflowError)
  }

  /** `int.Parse` reads back exactly what `int.ToString()` wrote. */
  lemma ParseIntToString(n: int)
    requires IsInt32(n)
    ensures ParseInt32(IntToString(n)) == Success(n)
  {
    var s := IntToString(n);
    var digits := NatToString(if n < 0 then -n else n);
    NatToStringValue(if n < 0 then -n else n);
    DigitsOfValue(digits);
    assert !IsWhite(s[0]) && !IsWhite(s[|s| - 1]);
    assert TrimEndWhite(TrimStartWhite(s)) == s;
    if n < 0 {
      assert s[1..] == digits;
    }
  }

  // ---------------------------------------------------------------------------
  // The `.*$` tail of a .NET regular expression
  // ---------------------------------------------------------------------------

  predicate NoNewline(s: string) {
    forall k :: 0 <= k < |s| ==> s[k] != '\n'
  }

  /** `.*$`: no line break, except that `$` also matches before a final one. */
  predicate RestMatches(r: string) {
    NoNewline(r) || (|r| > 0 && r[|r| - 1] == '\n' && NoNewline(r[..|r| - 1]))
  }

  /** What the `.*` group captures. */
  function RestGroup(r: string): string
    requires RestMatches(r)
  {
    if NoNewline(r) then r else r[..|r| - 1]
  }
}
