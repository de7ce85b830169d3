/**
 * `DispatchParser`: the run/set/quit command grammar the dispatcher scene
 * reads from its controller, in the UnityRLEnvironment version and in the
 * CreatureSimulation version, whose `Next` pulls lines from a communicator
 * until one of them is a command.
 */
module Dispatching {
  import opened Wrappers
  import opened Text
  import opened Parsing

  datatype DispatchCommand =
    | Run(experimentToRun: string)
    | Set(settingName: string, settingValue: string)
    | Quit

  const RunNeedsName: string := "Run command requires an experiment name."
  const IndexOutOfRange: string := "IndexOutOfRangeException"

  function Unrecognized(line: string): string {
    "Could not recognize command \"" + line + "\"."
  }

  /** How the controller spells each command. */
  function Format(c: DispatchCommand): string {
    match c
    case Run(x) => "run " + x
    case Set(a, b) => "set " + a + " " + b
    case Quit => "quit"
  }

  /** `DispatchParser.ParseLine` (UnityRLEnvironment): the first space-separated
      word selects the command; `set` reads two more words without checking
      that they are there. */
  function DispatchParse(line: string): LineResult<DispatchCommand> {
    var words := Split(line, ' ');
    if words[0] == "run" then
      if |words| == 1 then Rejected(RunNeedsName) else Parsed(Some(Run(words[1])))
    else if words[0] == "set" then
      if |words| < 3 then Raised(IndexOutOfRange) else Parsed(Some(Set(words[1], words[2])))
    else if words[0] == "quit" then Parsed(Some(Quit))
    else Rejected(Unrecognized(line))
  }

  /** `DispatchParser.ParseLine` (CreatureSimulation): the same grammar behind a
      guard for an empty word list, which fails without a message (a null
      message is written `""` here). */
  function SimDispatchParse(line: string): LineResult<DispatchCommand> {
    var words := Split(line, ' ');
    if |words| == 0 then Rejected("")
    else if words[0] == "run" then
      if |words| == 1 then Rejected(RunNeedsName) else Parsed(Some(Run(words[1])))
    else if words[0] == "set" then
      if |words| < 3 then Raised(IndexOutOfRange) else Parsed(Some(Set(words[1], words[2])))
    else if words[0] == "quit" then Parsed(Some(Quit))
    else Rejected(Unrecognized(line))
  }

  /** Splitting never yields zero words, so the guard never fires and both
      versions read every line alike. */
  lemma VersionsAgree(line: string)
    ensures |Split(line, ' ')| > 0
    ensures SimDispatchParse(line) == DispatchParse(line)
  {
  }

  /** A space-free first word, a space and more text: the first word stands
      alone and the rest splits on its own. */
  lemma SplitFirstWord(w: string, rest: string)
    requires ' ' !in w
    ensures Split(w + " " + rest, ' ') == [w] + Split(rest, ' ')
  {
    SplitAfterWord(w, " " + rest, ' ');
    assert w + " " + rest == w + (" " + rest);
    assert (" " + rest)[1..] == rest;
    assert w + "" == w;
  }

  /** The grammar: each command as the controller writes it is read back, and
      words after the ones a command needs are ignored. */
  lemma DispatchRoundTrip(c: DispatchCommand, rest: string)
    requires c.Run? ==> ' ' !in c.experimentToRun
    requires c.Set? ==> ' ' !in c.settingName && ' ' !in c.settingValue
    ensures DispatchParse(Format(c)) == Parsed(Some(c))
    ensures DispatchParse(Format(c) + " " + rest) == Parsed(Some(c))
  {
    match c
    case Run(x) => RunRoundTrip(x, rest);
    case Set(a, b) => SetRoundTrip(a, b, rest);
    case Quit => QuitRoundTrip(rest);
  }

  lemma RunRoundTrip(x: string, rest: string)
    requires ' ' !in x
    ensures DispatchParse("run " + x) == Parsed(Some(Run(x)))
    ensures DispatchParse("run " + x + " " + rest) == Parsed(Some(Run(x)))
  {
    SplitFirstWord("run", x);
    assert "run " + x == "run" + " " + x;
    SplitAfterWord(x, "", ' ');
    assert x + "" == x;
    SplitFirstWord("run", x + " " + rest);
    assert "run " + x + " " + rest == "run" + " " + (x + " " + rest);
    SplitFirstWord(x, rest);
  }

  lemma SetRoundTrip(a: string, b: string, rest: string)
    requires ' ' !in a && ' ' !in b
    ensures DispatchParse("set " + a + " " + b) == Parsed(Some(Set(a, b)))
    ensures DispatchParse("set " + a + " " + b + " " + rest) == Parsed(Some(Set(a, b)))
  {
    SetWords(a, b);
    SetWordsAndMore(a, b, rest);
  }

  lemma SetWords(a: string, b: string)
    requires ' ' !in a && ' ' !in b
    ensures Split("set " + a + " " + b, ' ') == ["set", a, b]
  {
    SetLineWords(a, b);
    SplitFirstWord("set", a + " " + b);
    SplitFirstWord(a, b);
    SplitLastWord(b);
  }

  /** How the `set` line is put together from its words. */
  lemma SetLineWords(a: string, b: string)
    ensures "set " + a + " " + b == "set" + " " + (a + " " + b)
  {
  }

  /** A space-free word alone is one piece. */
  lemma SplitLastWord(w: string)
    requires ' ' !in w
    ensures Split(w, ' ') == [w]
  {
    SplitAfterWord(w, "", ' ');
    assert w + "" == w;
  }

  lemma SetWordsAndMore(a: string, b: string, rest: string)
    requires ' ' !in a && ' ' !in b
    ensures Split("set " + a + " " + b + " " + rest, ' ') == ["set", a, b] + Split(rest, ' ')
  {
    SplitFirstWord("set", a + " " + b + " " + rest);
    assert "set " + a + " " + b + " " + rest == "set" + " " + (a + " " + b + " " + rest);
    assert a + " " + b + " " + rest == a + " " + (b + " " + rest);
    SplitFirstWord(a, b + " " + rest);
    SplitFirstWord(b, rest);
  }

  lemma QuitRoundTrip(rest: string)
    ensures DispatchParse("quit") == Parsed(Some(Quit))
    ensures DispatchParse("quit" + " " + rest) == Parsed(Some(Quit))
  {
    SplitAfterWord("quit", "", ' ');
    assert "quit" + "" == "quit";
    SplitFirstWord("quit", rest);
  }

  /** The failures: `run` alone is refused with its own message, `set` without
      a name and a value throws, and any other first word, the empty line
      included, is refused with a message quoting the line. */
  lemma DispatchFailures(name: string, line: string)
    requires ' ' !in name
    ensures DispatchParse("run") == Rejected(RunNeedsName)
    ensures DispatchParse("set") == Raised(IndexOutOfRange)
    ensures DispatchParse("set " + name) == Raised(IndexOutOfRange)
    ensures DispatchParse(line) == Rejected(Unrecognized(line)) <==>
      Split(line, ' ')[0] != "run" && Split(line, ' ')[0] != "set" && Split(line, ' ')[0] != "quit"
    ensures DispatchParse("") == Rejected(Unrecognized(""))
  {
    SplitLastWord("run");
    SetWithoutValue(name);
    UnrecognizedIff(line);
    SplitLastWord("");
  }

  lemma SetWithoutValue(name: string)
    requires ' ' !in name
    ensures DispatchParse("set") == Raised(IndexOutOfRange)
    ensures DispatchParse("set " + name) == Raised(IndexOutOfRange)
  {
    SplitLastWord("set");
    SplitLastWord(name);
    SplitFirstWord("set", name);
    assert "set " + name == "set" + " " + name;
  }

  lemma UnrecognizedIff(line: string)
    ensures DispatchParse(line) == Rejected(Unrecognized(line)) <==>
      Split(line, ' ')[0] != "run" && Split(line, ' ')[0] != "set" && Split(line, ' ')[0] != "quit"
  {
    assert RunNeedsName[0] != Unrecognized(line)[0];
  }

  // ---------------------------------------------------------------------------
  // `Next` (CreatureSimulation): pulling lines until one is a command
  // ---------------------------------------------------------------------------

  /** How a call to `Next` ends: a command, no lines left, or an exception
      thrown by the grammar, which leaves `Next` as well. */
  datatype Outcome = Found(command: DispatchCommand) | Exhausted | Aborted(error: string)

  /** What `Next` does with the lines the communicator still holds: its
      outcome, how many lines it takes and which errors it writes back. */
  datatype Pull = Pull(outcome: Outcome, consumed: nat, errors: seq<string>)

  /** `WriteError`: the line an error message goes out as. */
  function ErrorLine(e: string): string {
    "Error: " + e
  }

  /** The lines written back for a message: a null or empty one is not sent. */
  function Reported(e: string): seq<string> {
    if |e| > 0 then [ErrorLine(e)] else []
  }

  function Then(errors: seq<string>, rest: Pull): Pull {
    Pull(rest.outcome, rest.consumed + 1, errors + rest.errors)
  }

  /** `Next` as a function of the pending lines. It stops at the first command
      or exception and takes exactly the lines up to it; only running out of
      lines ends it without a command. */
  function PullSpec(lines: seq<string>): (r: Pull)
    ensures r.consumed <= |lines|
  {
    if |lines| == 0 then Pull(Exhausted, 0, [])
    else
      match SimDispatchParse(lines[0])
      case Parsed(Some(c)) => Pull(Found(c), 1, [])
      case Parsed(None) => Then([], PullSpec(lines[1..]))
      case Rejected(e) => Then(Reported(e), PullSpec(lines[1..]))
      case Raised(e) => Pull(Aborted(e), 1, [])
  }

  /** Whether the line neither queues a command nor throws. */
  predicate PassesOver(line: string) {
    var r := SimDispatchParse(line);
    !Queues(r) && !r.Raised?
  }

  /** `Next` runs out of lines exactly when none of them is a command or
      throws; otherwise it ends on the line that is. */
  lemma {:induction false} PullOutcomes(lines: seq<string>)
    ensures var r := PullSpec(lines);
      (r.outcome.Exhausted? <==> r.consumed == |lines| && forall k :: 0 <= k < |lines| ==> PassesOver(lines[k])) &&
      (r.outcome.Found? ==> 0 < r.consumed && SimDispatchParse(lines[r.consumed - 1]) == Parsed(Some(r.outcome.command))) &&
      (r.outcome.Aborted? ==> 0 < r.consumed && SimDispatchParse(lines[r.consumed - 1]) == Raised(r.outcome.error))
  {
    if |lines| > 0 {
      var r := PullSpec(lines);
      if PassesOver(lines[0]) {
        PullOutcomes(lines[1..]);
        var rest := PullSpec(lines[1..]);
        assert r.outcome == rest.outcome && r.consumed == rest.consumed + 1;
        if r.outcome.Exhausted? {
          forall k | 0 < k < |lines|
            ensures PassesOver(lines[k])
          {
            assert lines[k] == lines[1..][k - 1];
          }
        } else {
          assert rest.consumed < |lines[1..]| || !(forall k :: 0 <= k < |lines[1..]| ==> PassesOver(lines[1..][k]));
          if rest.consumed == |lines[1..]| {
            var k :| 0 <= k < |lines[1..]| && !PassesOver(lines[1..][k]);
            assert !PassesOver(lines[k + 1]);
          }
          if r.outcome.Found? || r.outcome.Aborted? {
            assert lines[r.consumed - 1] == lines[1..][rest.consumed - 1];
          }
        }
      }
    }
  }

  /** Every message of the refused lines that is worth reporting, in order. */
  function ReportedAll(lines: seq<string>): seq<string> {
    if |lines| == 0 then []
    else
      var r := SimDispatchParse(lines[0]);
      (if r.Rejected? then Reported(r.error) else []) + ReportedAll(lines[1..])
  }

  predicate Refused(line: string) {
    SimDispatchParse(line).Rejected?
  }

  /** After refused lines, the first command is returned, the lines after it
      stay with the communicator, and each refusal with a message was written
      back once. */
  lemma {:induction false} NextStopsAtFirstCommand(refused: seq<string>, line: string, later: seq<string>)
    requires forall k :: 0 <= k < |refused| ==> Refused(refused[k])
    requires Queues(SimDispatchParse(line))
    ensures PullSpec(refused + [line] + later) ==
      Pull(Found(SimDispatchParse(line).command.value), |refused| + 1, ReportedAll(refused))
  {
    if |refused| > 0 {
      NextStopsAtFirstCommand(refused[1..], line, later);
      assert (refused + [line] + later)[1..] == refused[1..] + [line] + later;
    } else {
      assert (refused + [line] + later)[0] == line;
    }
  }

  /** With only refused lines, `Next` takes them all, reports false and writes
      back every non-empty message. */
  lemma {:induction false} NextExhausts(refused: seq<string>)
    requires forall k :: 0 <= k < |refused| ==> Refused(refused[k])
    ensures PullSpec(refused) == Pull(Exhausted, |refused|, ReportedAll(refused))
  {
    if |refused| > 0 {
      NextExhausts(refused[1..]);
    }
  }

  /** The communicator as `Next` sees it: the lines it still holds and the
      errors written to it. */
  class Communicator {
    var pending: seq<string>
    var written: seq<string>

    constructor (lines: seq<string>)
      ensures pending == lines && written == []
    {
      pending := lines;
      written := [];
    }
  }

  /** The loop of `Next` over the lines the communicator holds. */
  method PullLines(lines: seq<string>) returns (outcome: Outcome, consumed: nat, errors: seq<string>)
    ensures Pull(outcome, consumed, errors) == PullSpec(lines)
  {
    consumed, errors := 0, [];
    outcome := Exhausted;
    ghost var total := PullSpec(lines);
    PullStart(lines);
    while consumed < |lines|
      invariant consumed <= |lines|
      invariant PulledSoFar(total, lines, consumed, errors)
    {
      PullStep(total, lines, consumed, errors);
      var r := SimDispatchParse(lines[consumed]);
      consumed := consumed + 1;
      if r.Raised? {
        return Aborted(r.error), consumed, errors;
      } else if Queues(r) {
        return Found(r.command.value), consumed, errors;
      } else if r.Rejected? {
        errors := errors + Reported(r.error);
      }
    }
    PullDone(total, lines, errors);
  }

  /** After `consumed` lines and `errors`, pulling the rest finishes the pull
      `total` of all of them. */
  ghost predicate PulledSoFar(total: Pull, lines: seq<string>, consumed: nat, errors: seq<string>)
    requires consumed <= |lines|
  {
    var rest := PullSpec(lines[consumed..]);
    total == Pull(rest.outcome, consumed + rest.consumed, errors + rest.errors)
  }

  lemma PullStart(lines: seq<string>)
    ensures PulledSoFar(PullSpec(lines), lines, 0, [])
  {
    assert lines[0..] == lines;
  }

  lemma PullDone(total: Pull, lines: seq<string>, errors: seq<string>)
    requires PulledSoFar(total, lines, |lines|, errors)
    ensures total == Pull(Exhausted, |lines|, errors)
  {
    assert lines[|lines|..] == [] && errors + [] == errors;
  }

  lemma PullStep(total: Pull, lines: seq<string>, consumed: nat, errors: seq<string>)
    requires consumed < |lines| && PulledSoFar(total, lines, consumed, errors)
    ensures var r := SimDispatchParse(lines[consumed]);
      (r.Raised? ==> total == Pull(Aborted(r.error), consumed + 1, errors)) &&
      (!r.Raised? && Queues(r) ==> total == Pull(Found(r.command.value), consumed + 1, errors)) &&
      (!r.Raised? && !Queues(r) ==>
        PulledSoFar(total, lines, consumed + 1, if r.Rejected? then errors + Reported(r.error) else errors))
  {
    PullCons(lines, consumed);
    var r := SimDispatchParse(lines[consumed]);
    if !r.Raised? && !Queues(r) {
      var rest := PullSpec(lines[consumed + 1..]);
      var reported := if r.Rejected? then Reported(r.error) else [];
      assert errors + (reported + rest.errors) == (errors + reported) + rest.errors;
    } else {
      assert errors + [] == errors;
    }
  }

  /** The pull of the lines from `k` on, unfolded at line `k`. */
  lemma PullCons(lines: seq<string>, k: nat)
    requires k < |lines|
    ensures var r := SimDispatchParse(lines[k]);
      var rest := PullSpec(lines[k + 1..]);
      PullSpec(lines[k..]) ==
        if r.Raised? then Pull(Aborted(r.error), 1, [])
        else if Queues(r) then Pull(Found(r.command.value), 1, [])
        else Then(if r.Rejected? then Reported(r.error) else [], rest)
  {
    var tail := lines[k..];
    assert tail[0] == lines[k] && tail[1..] == lines[k + 1..];
  }

  class DispatchReader {
    const communicator: Communicator

    constructor (communicator: Communicator)
      ensures this.communicator == communicator
    {
      this.communicator := communicator;
    }

    /** `DispatchParser.Next`: lines are taken one at a time until one parses;
        every refusal with a message is written back as an error. */
    method Next() returns (outcome: Outcome)
      modifies communicator
      ensures var p := PullSpec(old(communicator.pending));
        outcome == p.outcome &&
        communicator.pending == old(communicator.pending)[p.consumed..] &&
        communicator.written == old(communicator.written) + p.errors
    {
      var consumed, errors;
      outcome, consumed, errors := PullLines(communicator.pending);
      communicator.pending := communicator.pending[consumed..];
      communicator.written := communicator.written + errors;
    }
  }
}
