/**
 * `JsonParser<T>`: an incremental framer for a stream of JSON objects, one
 * line at a time. Objects may span lines or share a line; the line `END`
 * terminates the list. Decoding of one object's text is a parameter (it is
 * `System.Text.Json` in the source).
 */
module JsonParsing {
  import opened Wrappers
  import opened Parsing
  import opened JsonFraming

  /** The command a `JsonParser` queues: decoded objects, or the end marker. */
  datatype JsonCommand<T> = JsonCommand(objects: seq<T>, isEnd: bool)

  const Terminator: string := "END"

  /** The outcome of one `ParseLine` call: the verdict and the new values of
      the open-bracket count and the pending text. */
  datatype JsonStep<T> = JsonStep(result: LineResult<JsonCommand<T>>, count: int, past: string)

  function DecodeError(e: string): string {
    "Could not parse line: " + e + "."
  }

  function UnderflowError(carried: string): string {
    "JSON string started with closed bracket \n" + carried
  }

  /** The verdict and new state after a scan: the first text that fails to
      decode wins; otherwise a throw, or the decoded objects and the open rest. */
  function StepOf<T>(f: Framing, decode: string -> Result<T, string>): JsonStep<T> {
    var d := Decoded(f.texts, decode);
    if d.error.Some? then JsonStep(Rejected(DecodeError(d.error.value)), 0, "")
    else match f.end
      case Underflow(carried, c) => JsonStep(Raised(UnderflowError(carried)), c, carried)
      case Open(rest, c) =>
        JsonStep(Parsed(if |d.values| > 0 then Some(JsonCommand(d.values, false)) else None), c, rest)
  }

  /** What `ParseLine` does to a line, given the count and pending text it starts from. */
  function ParseSpec<T>(count: int, past: string, line: string, decode: string -> Result<T, string>): JsonStep<T> {
    if line == Terminator then JsonStep(Parsed(Some(JsonCommand([], true))), count, past)
    else StepOf(Scan(count, past, line), decode)
  }

  /** Where a scan of `line` stands before position `i`: `texts` completed
      and decoded into `objects`, and the rest of the scan still to come. */
  ghost predicate Scanning<T>(whole: Framing, texts: seq<string>, objects: seq<T>, line: string,
                              i: int, count: int, jsonStr: string, nas: int, decode: string -> Result<T, string>)
  {
    0 <= nas <= i <= |line| &&
    Decoded(texts, decode) == Decoding(objects, None) &&
    whole == Prepend(texts, FrameAt(line, i, count, jsonStr, nas))
  }

  /** One bracket of the scan, at `index`: `{` opens, `}` closes and may
      underflow or complete an object, which is decoded at once. */
  method Bracket<T>(ghost whole: Framing, ghost texts: seq<string>, objects: seq<T>, line: string,
                    index: nat, count: int, jsonStr: string, nas: nat, decode: string -> Result<T, string>)
      returns (stop: Option<LineResult<JsonCommand<T>>>, closed: bool,
               ghost texts': seq<string>, objects': seq<T>, count': int, jsonStr': string, nas': nat)
    requires index < |line| && IsBracket(line[index])
    requires Scanning(whole, texts, objects, line, index, count, jsonStr, nas, decode)
    ensures stop.Some? ==> StepOf(whole, decode) == JsonStep(stop.value, count', jsonStr')
    ensures stop.Some? && !closed ==> jsonStr' == jsonStr
    ensures stop.Some? && closed ==> jsonStr' == ""
    ensures stop.None? ==> Scanning(whole, texts', objects', line, index + 1, count', jsonStr', nas', decode)
    ensures stop.None? && closed ==> jsonStr' == "" && |texts'| > 0
    ensures stop.None? && !closed ==> jsonStr' == jsonStr && texts' == texts
  {
    texts', objects', jsonStr', nas' := texts, objects, jsonStr, nas;
    closed := false;
    stop := None;
    if line[index] == '{' {
      count' := count + 1;
    } else {
      count' := count - 1;
      if count' < 0 {
        assert texts + [] == texts;
        stop := Some(Raised(UnderflowError(jsonStr)));
        return;
      }
      if count' == 0 {
        closed := true;
        var text := jsonStr + line[nas..index + 1];
        var decoded := decode(text);
        ghost var later := FrameAt(line, index + 1, 0, "", index + 1);
        assert texts + ([text] + later.texts) == texts + [text] + later.texts;
        DecodeNext(texts, objects, text, later.texts, decode);
        jsonStr' := "";
        nas' := index + 1;
        if decoded.Failure? {
          stop := Some(Rejected(DecodeError(decoded.error)));
          return;
        }
        texts' := texts + [text];
        objects' := objects + [decoded.value];
      }
    }
  }

  /** The do-while scan over the bracket positions of a line that is not
      `END`, from the open-bracket count and pending text of earlier lines. */
  method ScanLine<T>(line: string, count0: int, past0: string, decode: string -> Result<T, string>)
      returns (r: LineResult<JsonCommand<T>>, count: int, past: string)
    ensures JsonStep(r, count, past) == StepOf(Scan(count0, past0, line), decode)
  {
    ghost var texts: seq<string> := [];
    var objects: seq<T> := [];
    var jsonStr := past0;
    var index := -1;
    var nextAppendStart := 0;
    count, past := count0, past0;
    FrameAtIsFrame(line, 0, count0, past0, 0);
    assert line[0..0] == "" && line[0..] == line;
    ghost var whole := Scan(count0, past0, line);
    assert whole == Prepend([], FrameAt(line, 0, count0, past0, 0));
    while true
      invariant -1 <= index < |line|
      invariant Scanning(whole, texts, objects, line, index + 1, count, jsonStr, nextAppendStart, decode)
      invariant |texts| == 0 ==> jsonStr == past0 && past == past0
      invariant |texts| > 0 ==> jsonStr == "" && past == ""
      decreases |line| - index
    {
      var next := IndexOfBracket(line, index + 1);
      if next < 0 {
        EndAt(whole, texts, line, index + 1, count, jsonStr, nextAppendStart);
        jsonStr := jsonStr + line[nextAppendStart..];
        past := jsonStr;
        if |objects| > 0 {
          return Parsed(Some(JsonCommand(objects, false))), count, past;
        }
        return Parsed(None), count, past;
      }
      SkipPlainAt(line, index + 1, next, count, jsonStr, nextAppendStart);
      index := next;
      var stop, closed;
      stop, closed, texts, objects, count, jsonStr, nextAppendStart :=
        Bracket(whole, texts, objects, line, index, count, jsonStr, nextAppendStart, decode);
      if closed {
        past := "";
      }
      if stop.Some? {
        return stop.value, count, past;
      }
    }
  }

  class JsonParser<T> {
    /** Open `{` not yet closed, across calls. */
    var openBracketCount: int
    /** The unfinished object text left over from earlier lines. */
    var pastJsonString: string
    /** The deserializer for one object's text. */
    const decode: string -> Result<T, string>
    /** The inherited command queue, event and callback. */
    const commands: Parser<JsonCommand<T>>

    constructor (decode: string -> Result<T, string>)
      ensures openBracketCount == 0 && pastJsonString == ""
      ensures this.decode == decode
      ensures fresh(commands) && commands.Valid() && commands.queue == [] && commands.callback == None
    {
      openBracketCount := 0;
      pastJsonString := "";
      this.decode := decode;
      commands := new Parser();
    }

    /** `END`, or the scan of the line from the stored count and pending text. */
    method ParseLine(line: string) returns (r: LineResult<JsonCommand<T>>)
      modifies this
      ensures JsonStep(r, openBracketCount, pastJsonString) ==
        ParseSpec(old(openBracketCount), old(pastJsonString), line, decode)
    {
      if line == Terminator {
        return Parsed(Some(JsonCommand([], true)));
      }
      r, openBracketCount, pastJsonString := ScanLine(line, openBracketCount, pastJsonString, decode);
    }

    /** The inherited `TryParse` around this grammar. */
    method TryParse(line: string) returns (status: Status, fired: Option<(nat, JsonCommand<T>)>)
      requires commands.Valid()
      modifies this, commands
      ensures commands.Valid()
      ensures var s := ParseSpec(old(openBracketCount), old(pastJsonString), line, decode);
        status == StatusOf(s.result) && openBracketCount == s.count && pastJsonString == s.past &&
        commands.queue == old(commands.queue) + (if Queues(s.result) then [s.result.command.value] else [])
      ensures commands.callback == old(commands.callback)
    {
      var r := ParseLine(line);
      status, fired := commands.TryParse(r);
    }
  }

  // ---------------------------------------------------------------------------
  // Properties of one call
  // ---------------------------------------------------------------------------

  /** `END` yields an empty end command and leaves the count and pending text alone. */
  lemma {:induction false} EndLeavesStateAlone<T>(count: int, past: string, decode: string -> Result<T, string>)
    ensures ParseSpec(count, past, Terminator, decode) ==
      JsonStep(Parsed(Some(JsonCommand([], true))), count, past)
  {
  }

  /** A line that neither completes an object nor underflows is kept whole,
      untrimmed, after the pending text, and only brackets move the count. */
  lemma {:induction false} NothingClosedAccumulates<T>(count: int, past: string, line: string, decode: string -> Result<T, string>)
    requires line != Terminator
    requires forall k :: 0 < k <= |line| ==> count + Net(line[..k]) > 0
    ensures ParseSpec(count, past, line, decode) == JsonStep(Parsed(None), count + Net(line), past + line)
  {
    FrameNoClose(count, past, "", line, "");
    assert line + "" == line && "" + line == line;
  }

  /** A successful line moves the count by its `{` minus its `}`, and the new
      pending text is what follows the last completed object, untrimmed. */
  lemma {:induction false} ParsedLineConserves<T>(count: int, past: string, line: string, decode: string -> Result<T, string>)
    requires line != Terminator
    requires ParseSpec(count, past, line, decode).result.Parsed?
    ensures var s := ParseSpec(count, past, line, decode);
      s.count == count + Net(line) &&
      Concat(Scan(count, past, line).texts) + s.past == past + line
  {
    FrameCount(count, past, "", line);
    FrameConserves(count, past, "", line);
  }

  /** A command is produced exactly when the line completed at least one object. */
  lemma {:induction false} CommandIffObjectCompleted<T>(count: int, past: string, line: string, decode: string -> Result<T, string>)
    requires line != Terminator
    requires ParseSpec(count, past, line, decode).result.Parsed?
    ensures var s := ParseSpec(count, past, line, decode);
      (s.result.command.Some? <==> |Scan(count, past, line).texts| > 0) &&
      (s.result.command.Some? ==> s.result.command.value.objects == Decoded(Scan(count, past, line).texts, decode).values)
  {
  }

  /** A `}` that takes the running count below zero makes the line throw (or
      fail earlier on a bad object); a throw happens only then, and from a
      non-negative count it leaves the count at -1. */
  lemma {:induction false} UnderflowThrows<T>(count: int, past: string, line: string, decode: string -> Result<T, string>)
    requires line != Terminator
    ensures var s := ParseSpec(count, past, line, decode);
      ((exists k :: 0 <= k < |line| && line[k] == '}' && count + Net(line[..k + 1]) < 0) <==>
        (s.result.Raised? || (s.result.Rejected? && Scan(count, past, line).end.Underflow?))) &&
      (s.result.Raised? && count >= 0 ==> s.count == -1)
  {
    FrameUnderflowIff(count, past, "", line);
    if count >= 0 {
      UnderflowAtMinusOne(count, past, "", line);
    }
  }

  /** A failed decode resets the framer and emits none of the line's objects,
      not even those decoded before it. */
  lemma {:induction false} DecodeFailureResets<T>(count: int, past: string, line: string, decode: string -> Result<T, string>)
    requires line != Terminator
    requires Decoded(Scan(count, past, line).texts, decode).error.Some?
    ensures var s := ParseSpec(count, past, line, decode);
      s.result.Rejected? && s.count == 0 && s.past == "" &&
      s.result.error == DecodeError(Decoded(Scan(count, past, line).texts, decode).error.value)
  {
  }

  // ---------------------------------------------------------------------------
  // An object split over two lines
  // ---------------------------------------------------------------------------

  /** A JSON object text: it opens at once, stays open over every proper
      prefix and closes with its last character. */
  predicate ClosesFirstAtEnd(o: string) {
    |o| > 0 && o[|o| - 1] == '}' && Net(o) == 0 &&
    forall k :: 0 < k < |o| ==> Net(o[..k]) > 0
  }

  /** The line that finishes a split object completes it, whole, and leaves
      nothing pending. */
  lemma {:induction false} ClosingLineCompletes(l1: string, l2: string)
    requires ClosesFirstAtEnd(l1 + l2) && |l2| > 0
    ensures Scan(Net(l1), l1, l2) == Framing([l1 + l2], Open("", 0))
  {
    var o := l1 + l2;
    var m := l2[..|l2| - 1];
    assert l2 == m + "}";
    forall k | 0 < k <= |m|
      ensures Net(l1) + Net(m[..k]) > 0
    {
      assert o[..|l1| + k] == l1 + m[..k];
      NetAppend(l1, m[..k]);
    }
    FrameNoClose(Net(l1), l1, "", m, "}");
    assert o == (l1 + m) + "}";
    NetAppend(l1 + m, "}");
    NetAppend(l1, m);
    assert Net("}") == -1;
    assert "" + m == m;
    assert "}"[0] == '}' && "}"[1..] == "";
    assert l1 + m + ['}'] == o;
    assert "" + "" == "";
    assert Frame(0, "", "", "") == Framing([], Open("", 0));
    calc {
      Scan(Net(l1), l1, l2);
      Frame(Net(l1), l1, "", m + "}");
      Frame(Net(l1) + Net(m), l1, m, "}");
      Prepend([o], Frame(0, "", "", ""));
    }
    assert [o] + [] == [o];
  }

  /** An object split into `l1` and `l2` at any point is emitted exactly once,
      decoded from the whole text, and only by the call for `l2`. */
  lemma {:induction false} SplitObjectEmittedOnce<T>(l1: string, l2: string, decode: string -> Result<T, string>)
    requires ClosesFirstAtEnd(l1 + l2) && |l2| > 0
    ensures var s1 := ParseSpec(0, "", l1, decode);
      var s2 := ParseSpec(s1.count, s1.past, l2, decode);
      s1 == JsonStep(Parsed(None), Net(l1), l1) &&
      s2 == match decode(l1 + l2)
        case Success(v) => JsonStep(Parsed(Some(JsonCommand([v], false))), 0, "")
        case Failure(e) => JsonStep(Rejected(DecodeError(e)), 0, "")
  {
    var o := l1 + l2;
    // The first line stays inside the object.
    assert l1 != Terminator by {
      if |l1| > 0 {
        var head := o[..1];
        assert head[0] == l1[0] && head[1..] == [];
        assert Net(head) == Delta(l1[0]) + Net([]);
        assert Net(head) > 0;
        assert l1[0] == '{';
      }
    }
    forall k | 0 < k <= |l1|
      ensures 0 + Net(l1[..k]) > 0
    {
      assert l1[..k] == o[..k];
    }
    NothingClosedAccumulates(0, "", l1, decode);
    // The second line runs on until its final `}`.
    assert l2 != Terminator by {
      assert l2[|l2| - 1] == '}';
    }
    ClosingLineCompletes(l1, l2);
    var s1 := ParseSpec(0, "", l1, decode);
    assert s1 == JsonStep(Parsed(None), Net(l1), l1);
    assert ParseSpec(s1.count, s1.past, l2, decode) == StepOf(Framing([o], Open("", 0)), decode);
    assert [o][..0] == [];
    assert Decoded([o], decode) == match decode(o)
      case Success(v) => Decoding([v], None)
      case Failure(e) => Decoding([], Some(e));
  }
}
