/**
 * `ErrorWarningParser`: lines `Error:<message>` and `Warning:<message>` sent
 * by the external controller, the keyword matched without regard to case.
 */
module ErrorWarnings {
  import opened Wrappers
  import opened Text
  import opened Parsing

  datatype ParsedErrorWarning = ParsedErrorWarning(message: string, isError: bool)

  /** `ParsedErrorWarning.ToString`. */
  function Describe(p: ParsedErrorWarning): string {
    (if p.isError then "Error" else "Warning") + " from extern: " + p.message
  }

  function Lower(c: char): char {
    if 'A' <= c <= 'Z' then (c as int + 32) as char else c
  }

  /** `RegexOptions.IgnoreCase` on letters, taken as ASCII case folding. */
  predicate SameIgnoringCase(a: string, b: string) {
    |a| == |b| && forall k :: 0 <= k < |a| ==> Lower(a[k]) == Lower(b[k])
  }

  /** The line starts with `word` in any case, then a colon. */
  predicate KeywordThenColon(line: string, word: string) {
    |line| > |word| && SameIgnoringCase(line[..|word|], word) && line[|word|] == ':'
  }

  function NotErrorWarning(line: string): string {
    "Could not parse line " + line + " as an error or warning."
  }

  /** `ErrorWarningParser.ParseLine`: the `is_error` group is the keyword as
      written, and `StartsWith("Error")` on it is case-sensitive. */
  function ErrorWarningParse(line: string): LineResult<ParsedErrorWarning> {
    if KeywordThenColon(line, "Error") && RestMatches(line[6..]) then
      Parsed(Some(ParsedErrorWarning(RestGroup(line[6..]), line[..5] == "Error")))
    else if KeywordThenColon(line, "Warning") && RestMatches(line[8..]) then
      Parsed(Some(ParsedErrorWarning(RestGroup(line[8..]), false)))
    else Rejected(NotErrorWarning(line))
  }

  /** A line is accepted iff it is `Error:` or `Warning:` in any case followed
      by a one-line message; the message is everything after the colon, and
      only the exact spelling `Error` makes it an error. Nothing is thrown. */
  lemma ErrorWarningParseIff(line: string)
    ensures var r := ErrorWarningParse(line);
      (r.Parsed? <==>
        (KeywordThenColon(line, "Error") && RestMatches(line[6..])) ||
        (KeywordThenColon(line, "Warning") && RestMatches(line[8..]))) &&
      !r.Raised? &&
      (r.Parsed? ==> r.command.Some?) &&
      (r.Parsed? && KeywordThenColon(line, "Error") ==>
        r.command.value.message == RestGroup(line[6..]) &&
        (r.command.value.isError <==> line[..6] == "Error:")) &&
      (r.Parsed? && KeywordThenColon(line, "Warning") ==>
        r.command.value.message == RestGroup(line[8..]) && !r.command.value.isError)
  {
    if KeywordThenColon(line, "Error") {
      assert !KeywordThenColon(line, "Warning") by {
        assert Lower(line[0]) == 'e';
        if |line| > 7 {
          assert Lower("Warning"[0]) == 'w';
        }
      }
      assert line[..6] == line[..5] + [':'];
      if line[..6] == "Error:" {
        assert line[..5] == line[..6][..5];
      }
    }
  }

  /** What a controller writes is read back as the same error or warning. */
  lemma ErrorWarningRoundTrip(message: string, isError: bool)
    requires NoNewline(message)
    ensures ErrorWarningParse((if isError then "Error:" else "Warning:") + message) ==
      Parsed(Some(ParsedErrorWarning(message, isError)))
  {
    var line := (if isError then "Error:" else "Warning:") + message;
    if isError {
      assert line[..5] == "Error" && line[5] == ':' && line[6..] == message;
      assert SameIgnoringCase(line[..5], "Error");
    } else {
      assert line[..7] == "Warning" && line[7] == ':' && line[8..] == message;
      assert SameIgnoringCase(line[..7], "Warning");
      assert Lower(line[0]) == 'w';
      assert !KeywordThenColon(line, "Error");
    }
    assert RestGroup(message) == message;
  }

  /** The keyword is matched in any case, but only `Error` classifies as an error. */
  lemma LowerCaseErrorIsWarning()
    ensures ErrorWarningParse("error: x") == Parsed(Some(ParsedErrorWarning(" x", false)))
  {
    var line := "error: x";
    assert line[..5] == "error" && line[5] == ':' && line[6..] == " x";
    assert SameIgnoringCase(line[..5], "Error");
    assert NoNewline(" x");
  }

  /** `ToString` loses nothing: different errors and warnings print differently. */
  lemma DescribeInjective(p: ParsedErrorWarning, q: ParsedErrorWarning)
    requires Describe(p) == Describe(q)
    ensures p == q
  {
    var dp, dq := Describe(p), Describe(q);
    assert dp[0] == (if p.isError then 'E' else 'W');
    assert dq[0] == (if q.isError then 'E' else 'W');
    var n := if p.isError then 19 else 21;
    assert dp[n..] == p.message;
    assert dq[n..] == q.message;
  }
}
