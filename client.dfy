/**
 * The reading side of the Python client's `SimulationTask` (identical in
 * `src/unity_instance.py` and `src/simulation_instance.py`): the pipe's chunks
 * are split on `"\r\n"`, reassembled into lines in `read_buffer`, each line is
 * classified as it is terminated, and `read_line` hands out finished lines.
 */
module ClientReading {
  import opened Wrappers
  import opened Text

  const Crlf: string := "\r\n"

  /** `_is_line_finished`: a line is finished iff it ends with `"\r\n"`. */
  predicate IsLineFinished(line: string) {
    |line| >= 2 && line[|line| - 2..] == Crlf
  }

  /** No `"\r\n"` occurs in `s`. */
  predicate NoCrlf(s: string) {
    forall i :: 0 <= i < |s| - 1 ==> !(s[i] == '\r' && s[i + 1] == '\n')
  }

  /** A buffered line without its terminating `"\r\n"`, if it has one. */
  function Body(line: string): string {
    if IsLineFinished(line) then line[..|line| - 2] else line
  }

  // ---------------------------------------------------------------------------
  // `str.split("\r\n")`
  // ---------------------------------------------------------------------------

  /** Python's `s.split("\r\n")`: the pieces between the separators, found from
      the left without overlapping; there is always at least one piece. */
  function SplitCrlf(s: string): (r: seq<string>)
    ensures |r| >= 1 && r[0] <= s
    ensures forall i :: 0 <= i < |r| ==> NoCrlf(r[i])
    decreases |s|
  {
    if |s| == 0 then [""]
    else if |s| >= 2 && s[0] == '\r' && s[1] == '\n' then [""] + SplitCrlf(s[2..])
    else
      var t := SplitCrlf(s[1..]);
      assert |t[0]| > 0 ==> t[0][0] == s[1];
      [[s[0]] + t[0]] + t[1..]
  }

  /** `"\r\n".join(pieces)`. */
  function JoinCrlf(pieces: seq<string>): string
    requires |pieces| >= 1
  {
    if |pieces| == 1 then pieces[0] else pieces[0] + Crlf + JoinCrlf(pieces[1..])
  }

  /** Splitting loses nothing: joining the pieces gives the text back. */
  lemma {:induction false} JoinSplitCrlf(s: string)
    ensures JoinCrlf(SplitCrlf(s)) == s
    decreases |s|
  {
    if |s| == 0 {
    } else if |s| >= 2 && s[0] == '\r' && s[1] == '\n' {
      JoinSplitCrlf(s[2..]);
      assert s == "" + Crlf + s[2..];
    } else {
      JoinSplitCrlf(s[1..]);
      SplitCrlfCons(s);
      JoinCrlfHead(s[0], SplitCrlf(s[1..]));
      assert [s[0]] + s[1..] == s;
    }
  }

  /** A character put in front of the first piece comes first in the join. */
  lemma JoinCrlfHead(c: char, t: seq<string>)
    requires |t| >= 1
    ensures JoinCrlf([[c] + t[0]] + t[1..]) == [c] + JoinCrlf(t)
  {
    if |t| > 1 {
      assert ([[c] + t[0]] + t[1..])[1..] == t[1..];
    }
  }

  /** Text without a separator is a single piece. */
  lemma {:induction false} SplitCrlfSingle(s: string)
    requires NoCrlf(s)
    ensures SplitCrlf(s) == [s]
    decreases |s|
  {
    if |s| > 0 {
      SplitCrlfSingle(s[1..]);
      assert [s[0]] + s[1..] == s;
    }
  }

  // ---------------------------------------------------------------------------
  // Classifying a finished line
  // ---------------------------------------------------------------------------

  /** The concrete task classes: `IdleTask`, `ExperimentTask`, `QuitTask`. */
  datatype TaskKind = Idle | Experiment | Quitting

  /** What `_on_read_line_from_pipe` does with a line: keep it, drop it (a
      warning), raise, or drop it and mark the task finished. */
  datatype Verdict = Keep | Drop | Finish | Raise(message: string)

  /** Every `"\n"` followed by a tab, as the error message shows the line. */
  function Tabbed(line: string): (r: string)
    ensures |r| >= |line|
  {
    if |line| == 0 then ""
    else (if line[0] == '\n' then "\n\t" else [line[0]]) + Tabbed(line[1..])
  }

  function ErrorMessage(line: string): string {
    "Got error from simulator: " + Tabbed(line)
  }

  /** The line that ends each task: `END` for an experiment, `QUIT` for a quit;
      an idle task has none. */
  predicate IsEndLine(kind: TaskKind, line: string) {
    (kind == Experiment && line == "END") || (kind == Quitting && line == "QUIT")
  }

  /** `_on_read_line_from_pipe`: the base class's warning and error checks,
      then the subclass's end line. */
  function Classify(kind: TaskKind, line: string): Verdict {
    if StartsWith(line, "Warning:") then Drop
    else if StartsWith(line, "Error:") then Raise(ErrorMessage(line))
    else if IsEndLine(kind, line) then Finish
    else Keep
  }

  /** The classification, case by case. */
  lemma ClassifyCases(kind: TaskKind, line: string)
    ensures Classify(kind, line) == Drop <==> StartsWith(line, "Warning:")
    ensures Classify(kind, line).Raise? <==> !StartsWith(line, "Warning:") && StartsWith(line, "Error:")
    ensures Classify(kind, line).Raise? ==> Classify(kind, line).message == ErrorMessage(line)
    ensures Classify(kind, line) == Finish <==> IsEndLine(kind, line)
    ensures Classify(kind, line) == Keep <==>
      !StartsWith(line, "Warning:") && !StartsWith(line, "Error:") && !IsEndLine(kind, line)
    ensures kind == Idle ==> Classify(kind, line) != Finish
  {
  }

  // ---------------------------------------------------------------------------
  // Reassembly
  // ---------------------------------------------------------------------------

  /** The task's reading state: `read_buffer` and the flag its end line sets
      (`has_received_end` or `has_received_quit`). */
  datatype ReadState = ReadState(buffer: seq<string>, received: bool)

  /** The result of a step: the new state, and the message of an exception
      raised by the classification, which ends the reading thread. */
  datatype Step = Step(state: ReadState, raised: Option<string>)

  /** `_get_finished_pipe_reading`. An idle task does not override it, and the
      base class's `NotImplemented` is truthy, so an idle task counts as
      finished. */
  predicate Finished(kind: TaskKind, received: bool) {
    kind == Idle || received
  }

  function Last(buffer: seq<string>): string
    requires |buffer| > 0
  {
    buffer[|buffer| - 1]
  }

  /** The second half of `_add_partial_line_to_buffer`: a non-empty fragment is
      appended unless the task has finished, when it is dropped. */
  function Append(kind: TaskKind, s: ReadState, partial: string): ReadState {
    if |partial| > 0 && !Finished(kind, s.received) then s.(buffer := s.buffer + [partial]) else s
  }

  /** The first half: the last buffered line gets `"\r\n"` and is classified,
      then the fragment is appended. */
  function TerminateLast(kind: TaskKind, s: ReadState, partial: string): Step
    requires |s.buffer| > 0
  {
    var n := |s.buffer|;
    var line := s.buffer[n - 1];
    match Classify(kind, line)
    case Raise(m) => Step(s.(buffer := s.buffer[..n - 1] + [line + Crlf]), Some(m))
    case Keep => Step(Append(kind, s.(buffer := s.buffer[..n - 1] + [line + Crlf]), partial), None)
    case Drop => Step(Append(kind, s.(buffer := s.buffer[..n - 1]), partial), None)
    case Finish => Step(Append(kind, ReadState(s.buffer[..n - 1], true), partial), None)
  }

  /** `_add_partial_line_to_buffer` as written: the last buffered line is
      terminated whether or not it already ends with `"\r\n"`. */
  function AddPartialAsWritten(kind: TaskKind, s: ReadState, partial: string): Step {
    if |s.buffer| == 0 then Step(Append(kind, s, partial), None)
    else TerminateLast(kind, s, partial)
  }

  /** `_add_partial_line_to_buffer` as intended: only an unfinished last line
      is terminated and classified. */
  function AddPartial(kind: TaskKind, s: ReadState, partial: string): Step {
    if |s.buffer| == 0 || IsLineFinished(Last(s.buffer)) then Step(Append(kind, s, partial), None)
    else TerminateLast(kind, s, partial)
  }

  /** The reading invariant: every buffered line but the last is finished, no
      line holds a `"\r\n"` before its end, and once the task has finished
      every buffered line is finished. */
  ghost predicate ReadValid(kind: TaskKind, s: ReadState) {
    (forall i :: 0 <= i < |s.buffer| ==> NoCrlf(Body(s.buffer[i]))) &&
    (forall i :: 0 <= i < |s.buffer| - 1 ==> IsLineFinished(s.buffer[i])) &&
    (Finished(kind, s.received) ==> forall i :: 0 <= i < |s.buffer| ==> IsLineFinished(s.buffer[i]))
  }

  lemma TerminatedBody(line: string)
    requires NoCrlf(line)
    ensures IsLineFinished(line + Crlf) && Body(line + Crlf) == line
  {
    assert (line + Crlf)[|line|..] == Crlf;
  }

  lemma UnfinishedFragment(partial: string)
    requires NoCrlf(partial)
    ensures !IsLineFinished(partial) && Body(partial) == partial
  {
    if |partial| >= 2 {
      assert !(partial[|partial| - 2] == '\r' && partial[|partial| - 1] == '\n');
    }
  }

  /** Every line finished and free of `"\r\n"` before its end. */
  ghost predicate Settled(buffer: seq<string>) {
    forall i :: 0 <= i < |buffer| ==> IsLineFinished(buffer[i]) && NoCrlf(Body(buffer[i]))
  }

  lemma AppendValid(kind: TaskKind, s: ReadState, partial: string)
    requires Settled(s.buffer) && NoCrlf(partial)
    ensures ReadValid(kind, Append(kind, s, partial))
  {
    UnfinishedFragment(partial);
  }

  /** Terminating an unfinished last line settles the buffer, with or without
      that line. */
  lemma TerminateSettles(kind: TaskKind, s: ReadState)
    requires ReadValid(kind, s) && |s.buffer| > 0 && !IsLineFinished(Last(s.buffer))
    ensures Settled(s.buffer[..|s.buffer| - 1])
    ensures Settled(s.buffer[..|s.buffer| - 1] + [Last(s.buffer) + Crlf])
  {
    var line := Last(s.buffer);
    assert NoCrlf(Body(line)) && Body(line) == line;
    TerminatedBody(line);
  }

  /** The intended step keeps the invariant, for every fragment a split can
      produce; the step that raises leaves a valid state too. */
  lemma AddPartialValid(kind: TaskKind, s: ReadState, partial: string)
    requires ReadValid(kind, s) && NoCrlf(partial)
    ensures ReadValid(kind, AddPartial(kind, s, partial).state)
  {
    var n := |s.buffer|;
    if n == 0 || IsLineFinished(Last(s.buffer)) {
      assert Settled(s.buffer);
      AppendValid(kind, s, partial);
    } else {
      var line := s.buffer[n - 1];
      TerminateSettles(kind, s);
      match Classify(kind, line)
      case Raise(m) =>
      case Keep => AppendValid(kind, s.(buffer := s.buffer[..n - 1] + [line + Crlf]), partial);
      case Drop => AppendValid(kind, s.(buffer := s.buffer[..n - 1]), partial);
      case Finish => AppendValid(kind, ReadState(s.buffer[..n - 1], true), partial);
    }
  }

  /** The two versions differ only when the last buffered line is already
      finished. */
  lemma AddPartialAgrees(kind: TaskKind, s: ReadState, partial: string)
    requires |s.buffer| == 0 || !IsLineFinished(Last(s.buffer))
    ensures AddPartialAsWritten(kind, s, partial) == AddPartial(kind, s, partial)
  {
  }

  /** The line as written goes wrong: a finished line `A` followed by a
      fragment is terminated a second time, so a well-formed buffer becomes
      ill-formed and reading hands the line out as `"A\r\n"`. This is the
      first fragment of any chunk read while `A` waits unread. */
  lemma DoubleTermination()
    ensures ReadValid(Experiment, ReadState(["A\r\n"], false))
    ensures var r := AddPartialAsWritten(Experiment, ReadState(["A\r\n"], false), "B");
      r == Step(ReadState(["A\r\n\r\n", "B"], false), None) &&
      !ReadValid(Experiment, r.state) &&
      ReadLineSpec(Experiment, r.state).outcome == LineOut("A\r\n") &&
      !NoCrlf("A\r\n")
  {
    assert "A\r\n" != "END" by {
      assert "A\r\n"[0] != "END"[0];
    }
    assert Classify(Experiment, "A\r\n") == Keep;
    assert "A\r\n" + Crlf == "A\r\n\r\n";
    assert ["A\r\n"][..0] + ["A\r\n" + Crlf] == ["A\r\n\r\n"];
    var s1 := ReadState(["A\r\n\r\n", "B"], false);
    assert IsLineFinished(s1.buffer[0]);
    assert s1.buffer[0][..|s1.buffer[0]| - 2] == "A\r\n";
    assert "A\r\n"[1] == '\r' && "A\r\n"[2] == '\n';
  }

  /** The feed of one fragment after another, stopping at an exception. */
  function AddAll(kind: TaskKind, s: ReadState, lines: seq<string>): Step
    decreases |lines|
  {
    if |lines| == 0 then Step(s, None)
    else
      var r := AddPartial(kind, s, lines[0]);
      if r.raised.Some? then r else AddAll(kind, r.state, lines[1..])
  }

  /** `AddAll` on the pieces from `i` on adds piece `i` first. */
  lemma AddAllStep(kind: TaskKind, s: ReadState, lines: seq<string>, i: nat)
    requires i < |lines|
    ensures var r := AddPartial(kind, s, lines[i]);
      AddAll(kind, s, lines[i..]) == if r.raised.Some? then r else AddAll(kind, r.state, lines[i + 1..])
  {
    assert lines[i..][1..] == lines[i + 1..];
  }

  /** One round of `_read_content` on a chunk read from the pipe: the chunk is
      split, its first piece completes an unfinished last line, and every
      other piece is added as a fragment. No round runs once the task has
      finished, and an empty read is skipped. */
  function ReceiveChunk(kind: TaskKind, s: ReadState, chunk: string): Step {
    if Finished(kind, s.received) || |chunk| == 0 then Step(s, None)
    else
      var lines := SplitCrlf(chunk);
      if |s.buffer| > 0 && !IsLineFinished(Last(s.buffer)) then
        var r := JoinLast(kind, s, lines[0]);
        if r.raised.Some? then r else AddAll(kind, r.state, lines[1..])
      else AddAll(kind, s, lines)
  }

  /** The join step of `_read_content`: the unfinished last line and the
      chunk's first piece are split again, the first part replaces the last
      line and a second part is added as a fragment. */
  function JoinLast(kind: TaskKind, s: ReadState, first: string): Step
    requires |s.buffer| > 0
  {
    var n := |s.buffer|;
    var combined := SplitCrlf(s.buffer[n - 1] + first);
    var s1 := s.(buffer := s.buffer[..n - 1] + [combined[0]]);
    if |combined| > 1 then AddPartial(kind, s1, combined[1]) else Step(s1, None)
  }

  lemma {:induction false} AddAllValid(kind: TaskKind, s: ReadState, lines: seq<string>)
    requires ReadValid(kind, s)
    requires forall i :: 0 <= i < |lines| ==> NoCrlf(lines[i])
    ensures ReadValid(kind, AddAll(kind, s, lines).state)
    decreases |lines|
  {
    if |lines| > 0 {
      AddPartialValid(kind, s, lines[0]);
      AddAllValid(kind, AddPartial(kind, s, lines[0]).state, lines[1..]);
    }
  }

  /** Every round of reading keeps the invariant, whatever the chunk. */
  lemma ReceiveChunkValid(kind: TaskKind, s: ReadState, chunk: string)
    requires ReadValid(kind, s)
    ensures ReadValid(kind, ReceiveChunk(kind, s, chunk).state)
  {
    if !Finished(kind, s.received) && |chunk| > 0 {
      var lines := SplitCrlf(chunk);
      if |s.buffer| > 0 && !IsLineFinished(Last(s.buffer)) {
        var n := |s.buffer|;
        var combined := SplitCrlf(s.buffer[n - 1] + lines[0]);
        var s1 := s.(buffer := s.buffer[..n - 1] + [combined[0]]);
        UnfinishedFragment(combined[0]);
        assert ReadValid(kind, s1);
        if |combined| > 1 {
          AddPartialValid(kind, s1, combined[1]);
        }
        AddAllValid(kind, JoinLast(kind, s, lines[0]).state, lines[1..]);
      } else {
        AddAllValid(kind, s, lines);
      }
    }
  }

  /** A line sent whole in one chunk is buffered whole, finished. */
  lemma WholeLineArrives(kind: TaskKind, line: string)
    requires kind != Idle && |line| > 0 && NoCrlf(line) && Classify(kind, line) == Keep
    ensures ReceiveChunk(kind, ReadState([], false), line + Crlf) ==
      Step(ReadState([line + Crlf], false), None)
  {
    SplitCrlfSingle(line);
    SplitThroughCrlf(line, "");
    assert line + Crlf + "" == line + Crlf;
    UnfinishedFragment(line);
    var s1 := ReadState([line], false);
    assert AddPartial(kind, ReadState([], false), line) == Step(s1, None);
    assert [line][..0] + [line + Crlf] == [line + Crlf];
    assert AddAll(kind, s1, [""]) == Step(ReadState([line + Crlf], false), None);
    assert [line, ""][1..] == [""];
  }

  /** A line that the pipe delivers in two chunks is joined back into one. */
  lemma SplitLineArrives(kind: TaskKind, a: string, b: string)
    requires kind != Idle && |a| > 0 && NoCrlf(a + b) && Classify(kind, a + b) == Keep
    ensures var s1 := ReceiveChunk(kind, ReadState([], false), a);
      s1 == Step(ReadState([a], false), None) &&
      ReceiveChunk(kind, s1.state, b + Crlf) == Step(ReadState([a + b + Crlf], false), None)
  {
    NoCrlfParts(a, b);
    SplitCrlfSingle(a);
    UnfinishedFragment(a);
    SplitThroughCrlf(b, "");
    assert b + Crlf + "" == b + Crlf;
    SplitCrlfSingle(a + b);
    UnfinishedFragment(a + b);
    assert AddAll(kind, ReadState([], false), [a]) == Step(ReadState([a], false), None);
    var s1 := ReadState([a + b], false);
    assert [a][..0] + [a + b] == [a + b];
    assert [a + b][..0] + [a + b + Crlf] == [a + b + Crlf];
    assert AddAll(kind, s1, [""]) == Step(ReadState([a + b + Crlf], false), None);
    assert [b, ""][1..] == [""];
  }

  lemma NoCrlfParts(a: string, b: string)
    requires NoCrlf(a + b)
    ensures NoCrlf(a) && NoCrlf(b)
  {
    forall i | 0 <= i < |a| - 1
      ensures !(a[i] == '\r' && a[i + 1] == '\n')
    {
      assert a[i] == (a + b)[i] && a[i + 1] == (a + b)[i + 1];
    }
    forall i | 0 <= i < |b| - 1
      ensures !(b[i] == '\r' && b[i + 1] == '\n')
    {
      assert b[i] == (a + b)[|a| + i] && b[i + 1] == (a + b)[|a| + i + 1];
    }
  }

  /** A piece without a separator, then a separator: the piece comes first. */
  lemma {:induction false} SplitThroughCrlf(p: string, rest: string)
    requires NoCrlf(p)
    ensures SplitCrlf(p + Crlf + rest) == [p] + SplitCrlf(rest)
    decreases |p|
  {
    if |p| == 0 {
      assert "" + Crlf + rest == Crlf + rest;
      assert (Crlf + rest)[2..] == rest;
    } else {
      var s := p + Crlf + rest;
      SplitCrlfHead(p, rest);
      assert s[1..] == p[1..] + Crlf + rest;
      SplitThroughCrlf(p[1..], rest);
      var t := [p[1..]] + SplitCrlf(rest);
      assert SplitCrlf(s[1..]) == t;
      SplitCrlfCons(s);
      assert t[0] == p[1..] && t[1..] == SplitCrlf(rest);
      assert [p[0]] + p[1..] == p;
    }
  }

  /** A text that does not open with a separator: its first character joins
      the first piece of the rest. */
  lemma SplitCrlfCons(s: string)
    requires |s| > 0 && !(|s| >= 2 && s[0] == '\r' && s[1] == '\n')
    ensures SplitCrlf(s) == [[s[0]] + SplitCrlf(s[1..])[0]] + SplitCrlf(s[1..])[1..]
  {
  }

  /** A non-empty piece without a separator does not open with one. */
  lemma SplitCrlfHead(p: string, rest: string)
    requires NoCrlf(p) && |p| > 0
    ensures var s := p + Crlf + rest;
      s[0] == p[0] && !(|s| >= 2 && s[0] == '\r' && s[1] == '\n')
  {
    var s := p + Crlf + rest;
    if |p| == 1 {
      assert s[1] == '\r';
    } else {
      assert s[1] == p[1];
    }
  }

  // ---------------------------------------------------------------------------
  // `read_line`
  // ---------------------------------------------------------------------------

  /** What `read_line` yields: the oldest finished line, `None` once the task
      has finished and nothing is left, or a wait for the reading thread. */
  datatype ReadOutcome = LineOut(line: string) | NoMoreLines | Waiting

  datatype ReadResult = ReadResult(outcome: ReadOutcome, state: ReadState)

  /** `read_line` on the state it sees under the lock. */
  function ReadLineSpec(kind: TaskKind, s: ReadState): ReadResult {
    if |s.buffer| == 0 && Finished(kind, s.received) then ReadResult(NoMoreLines, s)
    else if |s.buffer| > 0 && IsLineFinished(s.buffer[0]) then
      ReadResult(LineOut(s.buffer[0][..|s.buffer[0]| - 2]), s.(buffer := s.buffer[1..]))
    else ReadResult(Waiting, s)
  }

  /** On a valid state `read_line` hands out lines free of `"\r\n"`, keeps the
      invariant, and waits only while the task has not finished, so the
      retry after the wait cannot loop forever on a finished task. */
  lemma ReadLineValid(kind: TaskKind, s: ReadState)
    requires ReadValid(kind, s)
    ensures var r := ReadLineSpec(kind, s);
      ReadValid(kind, r.state) &&
      (r.outcome.LineOut? ==> NoCrlf(r.outcome.line) && r.state.buffer == s.buffer[1..]) &&
      (r.outcome.Waiting? ==> !Finished(kind, s.received) && r.state == s) &&
      (r.outcome.NoMoreLines? <==> s.buffer == [] && Finished(kind, s.received))
  {
    if |s.buffer| > 0 && IsLineFinished(s.buffer[0]) {
      assert NoCrlf(Body(s.buffer[0]));
    }
  }

  /** `SimulationTask` and its subclasses: the buffer, the end flags, and the
      operations that change them. */
  class ReadTask {
    const kind: TaskKind
    var readBuffer: seq<string>
    /** `has_received_end` (experiment) or `has_received_quit` (quit). */
    var received: bool
    /** `has_sent_end` of an experiment task. */
    var hasSentEnd: bool

    function State(): ReadState
      reads this
    {
      ReadState(readBuffer, received)
    }

    ghost predicate Valid()
      reads this
    {
      ReadValid(kind, State())
    }

    function IsFinished(): bool
      reads this
    {
      Finished(kind, received)
    }

    constructor (kind: TaskKind)
      ensures this.kind == kind && readBuffer == [] && !received && !hasSentEnd
      ensures Valid()
    {
      this.kind := kind;
      readBuffer, received, hasSentEnd := [], false, false;
    }

    /** `on_has_sent_end`. */
    method OnHasSentEnd()
      modifies this
      ensures hasSentEnd && readBuffer == old(readBuffer) && received == old(received)
    {
      hasSentEnd := true;
    }

    /** `_on_read_line_from_pipe`: classify and, on the end line, set the flag. */
    method OnReadLineFromPipe(line: string) returns (verdict: Verdict)
      modifies this
      ensures verdict == Classify(kind, line)
      ensures received == (old(received) || verdict == Finish)
      ensures readBuffer == old(readBuffer) && hasSentEnd == old(hasSentEnd)
    {
      verdict := Classify(kind, line);
      if verdict == Finish {
        received := true;
      }
    }

    /** `_add_partial_line_to_buffer`, as intended. */
    method AddPartialLineToBuffer(partial: string) returns (raised: Option<string>)
      modifies this
      ensures Step(State(), raised) == AddPartial(kind, old(State()), partial)
      ensures hasSentEnd == old(hasSentEnd)
    {
      raised := None;
      var n := |readBuffer|;
      if n > 0 && !IsLineFinished(readBuffer[n - 1]) {
        var line := readBuffer[n - 1];
        readBuffer := readBuffer[..n - 1] + [line + Crlf];
        var verdict := OnReadLineFromPipe(line);
        if verdict.Raise? {
          return Some(verdict.message);
        } else if verdict != Keep {
          readBuffer := readBuffer[..n - 1];
        }
      }
      if |partial| > 0 && !IsFinished() {
        readBuffer := readBuffer + [partial];
      }
    }

    /** The join step of `_read_content`. */
    method JoinLastLine(first: string) returns (raised: Option<string>)
      requires |readBuffer| > 0
      modifies this
      ensures Step(State(), raised) == JoinLast(kind, old(State()), first)
      ensures hasSentEnd == old(hasSentEnd)
    {
      var n := |readBuffer|;
      var combined := SplitCrlf(readBuffer[n - 1] + first);
      readBuffer := readBuffer[..n - 1] + [combined[0]];
      raised := None;
      if |combined| > 1 {
        raised := AddPartialLineToBuffer(combined[1]);
      }
    }

    /** The `for` loop of `_read_content`: each piece in turn is added as a
        fragment, until one raises. */
    method AddLines(lines: seq<string>) returns (raised: Option<string>)
      modifies this
      ensures Step(State(), raised) == AddAll(kind, old(State()), lines)
      ensures hasSentEnd == old(hasSentEnd)
    {
      raised := None;
      var i := 0;
      while i < |lines|
        invariant 0 <= i <= |lines| && hasSentEnd == old(hasSentEnd) && raised == None
        invariant AddAll(kind, old(State()), lines) == AddAll(kind, State(), lines[i..])
      {
        AddAllStep(kind, State(), lines, i);
        raised := AddPartialLineToBuffer(lines[i]);
        if raised.Some? {
          return;
        }
        i := i + 1;
      }
    }

    /** One round of `_read_content`'s loop, on the chunk the pipe delivered. */
    method ReadContent(chunk: string) returns (raised: Option<string>)
      modifies this
      ensures Step(State(), raised) == ReceiveChunk(kind, old(State()), chunk)
      ensures hasSentEnd == old(hasSentEnd)
    {
      raised := None;
      if IsFinished() || |chunk| == 0 {
        return;
      }
      var lines := SplitCrlf(chunk);
      var n := |readBuffer|;
      if n > 0 && !IsLineFinished(readBuffer[n - 1]) {
        raised := JoinLastLine(lines[0]);
        if raised.Some? {
          return;
        }
        lines := lines[1..];
      }
      raised := AddLines(lines);
    }

    /** `SimulationTask.read_line`, one attempt under the lock. */
    method ReadLine() returns (outcome: ReadOutcome)
      modifies this
      ensures ReadResult(outcome, State()) == ReadLineSpec(kind, old(State()))
      ensures hasSentEnd == old(hasSentEnd)
    {
      if |readBuffer| == 0 && IsFinished() {
        return NoMoreLines;
      }
      if |readBuffer| > 0 && IsLineFinished(readBuffer[0]) {
        outcome := LineOut(readBuffer[0][..|readBuffer[0]| - 2]);
        readBuffer := readBuffer[1..];
        return;
      }
      outcome := Waiting;
    }
  }
}
