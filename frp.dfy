/**
 * `FRPCreatureReader`: the falling-rectangular-prism experiment's reader of
 * creature descriptions, one JSON object per creature, framed by the same
 * brace count as `JsonParser` and terminated by the line `END`. Lines come
 * from a stream reader, given here as the sequence of lines it would return;
 * decoding one object's text is a parameter.
 */
module CreatureReading {
  import opened Wrappers
  import opened JsonFraming

  const Terminator: string := "END"

  /** One tuple of `ReadClosedJSONObjects`: a text, whether it is a complete
      object, and the open-bracket count that goes with it. */
  datatype Chunk = Chunk(text: string, complete: bool, count: int)

  function UnderflowMessage(carried: string): string {
    "JSON string started with closed bracket \n" + carried
  }

  /** A complete chunk per completed object text, in order. */
  function CompleteChunks(texts: seq<string>): (r: seq<Chunk>)
    ensures |r| == |texts|
    ensures forall k :: 0 <= k < |r| ==> r[k] == Chunk(texts[k], true, 0)
  {
    if |texts| == 0 then [] else [Chunk(texts[0], true, 0)] + CompleteChunks(texts[1..])
  }

  lemma CompleteChunksAppend(texts: seq<string>, text: string)
    ensures CompleteChunks(texts + [text]) == CompleteChunks(texts) + [Chunk(text, true, 0)]
  {
  }

  /** The tuples yielded for a scan: the completed objects, then (unless the
      scan threw) the open rest with its count. */
  function ChunksOf(f: Framing): seq<Chunk> {
    CompleteChunks(f.texts) + (if f.end.Open? then [Chunk(f.end.rest, false, f.end.count)] else [])
  }

  /** The exception the enumeration ends with, if any. */
  function ThrownOf(f: Framing): Option<string> {
    if f.end.Underflow? then Some(UnderflowMessage(f.end.carried)) else None
  }

  /** Where the scan of `line` stands before position `i`. */
  ghost predicate Chunking(whole: Framing, texts: seq<string>, chunks: seq<Chunk>, line: string,
                           i: int, count: int, jsonStr: string, nas: int)
  {
    0 <= nas <= i <= |line| &&
    chunks == CompleteChunks(texts) &&
    whole == Prepend(texts, FrameAt(line, i, count, jsonStr, nas))
  }

  /** One bracket of the scan, at `index`; `stop` is the exception it throws. */
  method Bracket(ghost whole: Framing, ghost texts: seq<string>, chunks: seq<Chunk>, line: string,
                 index: nat, count: int, jsonStr: string, nas: nat)
      returns (stop: Option<string>, ghost texts': seq<string>, chunks': seq<Chunk>,
               count': int, jsonStr': string, nas': nat)
    requires index < |line| && IsBracket(line[index])
    requires Chunking(whole, texts, chunks, line, index, count, jsonStr, nas)
    ensures stop.Some? ==>
      whole == Framing(texts, Underflow(jsonStr, count - 1)) &&
      stop == Some(UnderflowMessage(jsonStr)) && chunks' == chunks
    ensures stop.None? ==> Chunking(whole, texts', chunks', line, index + 1, count', jsonStr', nas')
  {
    texts', chunks', jsonStr', nas' := texts, chunks, jsonStr, nas;
    stop := None;
    if line[index] == '{' {
      count' := count + 1;
    } else {
      count' := count - 1;
      if count' < 0 {
        assert texts + [] == texts;
        stop := Some(UnderflowMessage(jsonStr));
        return;
      }
      if count' == 0 {
        var text := jsonStr + line[nas..index + 1];
        ghost var later := FrameAt(line, index + 1, 0, "", index + 1);
        assert texts + ([text] + later.texts) == texts + [text] + later.texts;
        CompleteChunksAppend(texts, text);
        texts' := texts + [text];
        chunks' := chunks + [Chunk(text, true, 0)];
        jsonStr' := "";
        nas' := index + 1;
      }
    }
  }

  /** The tuples of one line, by the do-while scan over the bracket
      positions. An exception is reported in `thrown`, after the tuples the
      enumeration had already yielded. */
  method ReadClosedJSONObjects(past: string, newline: string, bracketCount: int)
      returns (chunks: seq<Chunk>, thrown: Option<string>)
    ensures chunks == ChunksOf(Scan(bracketCount, past, newline))
    ensures thrown == ThrownOf(Scan(bracketCount, past, newline))
  {
    ghost var texts: seq<string> := [];
    var count := bracketCount;
    var jsonStr := past;
    var index := -1;
    var nextAppendStart := 0;
    chunks := [];
    FrameAtIsFrame(newline, 0, bracketCount, past, 0);
    assert newline[0..0] == "" && newline[0..] == newline;
    ghost var whole := Scan(bracketCount, past, newline);
    assert whole == Prepend([], FrameAt(newline, 0, bracketCount, past, 0));
    while true
      invariant -1 <= index < |newline|
      invariant Chunking(whole, texts, chunks, newline, index + 1, count, jsonStr, nextAppendStart)
      decreases |newline| - index
    {
      var next := IndexOfBracket(newline, index + 1);
      if next < 0 {
        EndAt(whole, texts, newline, index + 1, count, jsonStr, nextAppendStart);
        jsonStr := jsonStr + newline[nextAppendStart..];
        chunks := chunks + [Chunk(jsonStr, false, count)];
        return chunks, None;
      }
      SkipPlainAt(newline, index + 1, next, count, jsonStr, nextAppendStart);
      index := next;
      var stop;
      stop, texts, chunks, count, jsonStr, nextAppendStart :=
        Bracket(whole, texts, chunks, newline, index, count, jsonStr, nextAppendStart);
      if stop.Some? {
        assert chunks + [] == chunks;
        return chunks, stop;
      }
    }
  }

  // ---------------------------------------------------------------------------
  // Reading creatures until `END`
  // ---------------------------------------------------------------------------

  /** How the asynchronous enumeration of creatures ends. */
  datatype Outcome = Done | Threw(error: string)

  /** A creature's initialization data with the number it was given. */
  datatype Creature<T> = Creature(index: int, data: T)

  /** The creatures yielded, in order, and how the enumeration ended. */
  datatype Reading<T> = Reading(creatures: seq<Creature<T>>, outcome: Outcome)

  /** A read past the last line hands `null` to the scan. */
  const NullReference: string := "NullReferenceException"

  /** Decoded values numbered on from `next`. */
  function Numbered<T>(values: seq<T>, next: int): (r: seq<Creature<T>>)
    ensures |r| == |values|
    ensures forall k :: 0 <= k < |r| ==> r[k] == Creature(next + k, values[k])
  {
    seq(|values|, k requires 0 <= k < |values| => Creature(next + k, values[k]))
  }

  /** What one line that is not `END` contributes: the creatures it yields,
      the exception it ends the reading with, if any, and otherwise the
      pending text and count for the next line. */
  datatype LineRead<T> = LineRead(made: seq<Creature<T>>, stop: Option<string>, past: string, count: int)

  function ReadLine<T>(line: string, past: string, count: int, next: int,
                       decode: string -> Result<T, string>): LineRead<T>
  {
    var f := Scan(count, past, line);
    var d := Decoded(f.texts, decode);
    var made := Numbered(d.values, next);
    if d.error.Some? then LineRead(made, d.error, past, count)
    else if f.end.Underflow? then LineRead(made, Some(UnderflowMessage(f.end.carried)), past, count)
    else LineRead(made, None, f.end.rest, f.end.count)
  }

  /** What reading `lines` yields, with `past` and `count` carried from the
      previous line and `next` the number of the next creature. */
  function ReadFrom<T>(lines: seq<string>, past: string, count: int, next: int,
                       decode: string -> Result<T, string>): Reading<T>
    decreases |lines|
  {
    if |lines| == 0 then Reading([], Threw(NullReference))
    else if lines[0] == Terminator then Reading([], Done)
    else
      var s := ReadLine(lines[0], past, count, next, decode);
      if s.stop.Some? then Reading(s.made, Threw(s.stop.value))
      else After(s.made, ReadFrom(lines[1..], s.past, s.count, next + |s.made|, decode))
  }

  /** `creatures` yielded before the rest of a reading. */
  function After<T>(creatures: seq<Creature<T>>, rest: Reading<T>): Reading<T> {
    Reading(creatures + rest.creatures, rest.outcome)
  }

  /** The tuple at `j`: a completed text, or the final open rest. */
  lemma ChunkAt(f: Framing, j: nat)
    requires j < |ChunksOf(f)|
    ensures |ChunksOf(f)| == |f.texts| + (if f.end.Open? then 1 else 0)
    ensures ChunksOf(f)[j].complete <==> j < |f.texts|
    ensures j < |f.texts| ==> ChunksOf(f)[j].text == f.texts[j]
    ensures j >= |f.texts| ==>
      j == |f.texts| && f.end.Open? && ChunksOf(f)[j] == Chunk(f.end.rest, false, f.end.count)
  {
  }

  lemma NumberedAppend<T>(values: seq<T>, v: T, next: int)
    ensures Numbered(values + [v], next) == Numbered(values, next) + [Creature(next + |values|, v)]
  {
  }

  /** Decoding the text at `j` after those before it decoded cleanly. */
  lemma DecodeAt<T>(ts: seq<string>, j: nat, values: seq<T>, decode: string -> Result<T, string>)
    requires j < |ts| && Decoded(ts[..j], decode) == Decoding(values, None)
    ensures decode(ts[j]).Failure? ==> Decoded(ts, decode) == Decoding(values, Some(decode(ts[j]).error))
    ensures decode(ts[j]).Success? ==> Decoded(ts[..j + 1], decode) == Decoding(values + [decode(ts[j]).value], None)
  {
    SplitAt(ts, j);
    DecodeNext(ts[..j], values, ts[j], ts[j + 1..], decode);
  }

  lemma SplitAt(ts: seq<string>, j: nat)
    requires j < |ts|
    ensures ts[..j] + [ts[j]] == ts[..j + 1]
    ensures ts[..j] + [ts[j]] + ts[j + 1..] == ts
  {
  }

  /** The tuples of one line, consumed in order: complete ones are decoded
      and numbered, the final open one becomes the pending text and count. */
  method TakeChunks<T>(ghost f: Framing, chunks: seq<Chunk>, decode: string -> Result<T, string>,
                       next: int, past: string, count: int)
      returns (made: seq<Creature<T>>, error: Option<string>, past': string, count': int)
    requires chunks == ChunksOf(f)
    ensures made == Numbered(Decoded(f.texts, decode).values, next)
    ensures error == Decoded(f.texts, decode).error
    ensures error.None? && f.end.Open? ==> past' == f.end.rest && count' == f.end.count
    ensures error.Some? || f.end.Underflow? ==> past' == past && count' == count
  {
    ghost var ts := f.texts;
    ghost var values: seq<T> := [];
    made, error, past', count' := [], None, past, count;
    var j := 0;
    assert ts[..0] == [];
    while j < |chunks|
      invariant 0 <= j <= |chunks|
      invariant j <= |ts| ==> Decoded(ts[..j], decode) == Decoding(values, None)
      invariant j > |ts| ==> Decoded(ts, decode) == Decoding(values, None)
      invariant made == Numbered(values, next)
      invariant j <= |ts| ==> past' == past && count' == count
      invariant j > |ts| ==> f.end.Open? && past' == f.end.rest && count' == f.end.count
    {
      var chunk := chunks[j];
      ChunkAt(f, j);
      if chunk.complete {
        DecodeAt(ts, j, values, decode);
        match decode(chunk.text)
        case Failure(e) =>
          return made, Some(e), past', count';
        case Success(v) =>
          NumberedAppend(values, v, next);
          made := made + [Creature(next + |made|, v)];
          values := values + [v];
      } else {
        assert ts[..j] == ts;
        past', count' := chunk.text, chunk.count;
      }
      j := j + 1;
    }
    if j <= |ts| {
      assert ts[..j] == ts;
    }
  }

  /** One line of the accumulation loop: its tuples, consumed in order. */
  method ReadOneLine<T>(line: string, past: string, count: int, next: int, decode: string -> Result<T, string>)
      returns (made: seq<Creature<T>>, stop: Option<string>, past': string, count': int)
    ensures LineRead(made, stop, past', count') == ReadLine(line, past, count, next, decode)
  {
    ghost var f := Scan(count, past, line);
    var chunks, thrown := ReadClosedJSONObjects(past, line, count);
    var error;
    made, error, past', count' := TakeChunks(f, chunks, decode, next, past, count);
    stop := if error.Some? then error else thrown;
  }

  /** Reading on from line `i`, which is not `END`, after `creatures`. */
  lemma ReadFromStep<T>(lines: seq<string>, i: nat, past: string, count: int, next: int,
                        creatures: seq<Creature<T>>, decode: string -> Result<T, string>)
    requires i < |lines| && lines[i] != Terminator
    ensures var s := ReadLine(lines[i], past, count, next, decode);
      After(creatures, ReadFrom(lines[i..], past, count, next, decode)) ==
        if s.stop.Some? then Reading(creatures + s.made, Threw(s.stop.value))
        else After(creatures + s.made, ReadFrom(lines[i + 1..], s.past, s.count, next + |s.made|, decode))
  {
    assert lines[i..][0] == lines[i] && lines[i..][1..] == lines[i + 1..];
    var s := ReadLine(lines[i], past, count, next, decode);
    var rest := ReadFrom(lines[i + 1..], s.past, s.count, next + |s.made|, decode);
    assert creatures + s.made + rest.creatures == creatures + (s.made + rest.creatures);
  }

  /** The accumulation loop of `ReadCreatures`, numbering from `next`. */
  method ReadLines<T>(lines: seq<string>, next: int, decode: string -> Result<T, string>)
      returns (creatures: seq<Creature<T>>, outcome: Outcome)
    ensures Reading(creatures, outcome) == ReadFrom(lines, "", 0, next, decode)
  {
    var incompleteJSONStr := "";
    var bracketCount := 0;
    var creatureCount := next;
    var i := 0;
    creatures := [];
    while i < |lines| && lines[i] != Terminator
      invariant 0 <= i <= |lines|
      invariant creatureCount == next + |creatures|
      invariant ReadFrom(lines, "", 0, next, decode) ==
        After(creatures, ReadFrom(lines[i..], incompleteJSONStr, bracketCount, creatureCount, decode))
      decreases |lines| - i
    {
      var made, stop, past, count := ReadOneLine(lines[i], incompleteJSONStr, bracketCount, creatureCount, decode);
      ReadFromStep(lines, i, incompleteJSONStr, bracketCount, creatureCount, creatures, decode);
      creatures := creatures + made;
      creatureCount := creatureCount + |made|;
      if stop.Some? {
        assert creatures + [] == creatures;
        return creatures, Threw(stop.value);
      }
      incompleteJSONStr, bracketCount := past, count;
      i := i + 1;
    }
    assert creatures + [] == creatures;
    if i == |lines| {
      return creatures, Threw(NullReference);
    }
    assert lines[i..][0] == lines[i];
    return creatures, Done;
  }

  class FRPCreatureReader {
    /** Numbers handed out so far; never reset between readings. */
    var creatureCount: int
    var isDoneReading: bool
    /** How many times `onIsDoneReading` has fired. */
    var doneEvents: nat

    constructor ()
      ensures creatureCount == 0 && !isDoneReading && doneEvents == 0
    {
      creatureCount := 0;
      isDoneReading := false;
      doneEvents := 0;
    }

    /** Reads lines until `END`, yielding each decoded creature in order;
        the flag is raised and the event fired only on reaching `END`. */
    method ReadCreatures<T>(lines: seq<string>, decode: string -> Result<T, string>)
        returns (creatures: seq<Creature<T>>, outcome: Outcome)
      modifies this
      ensures Reading(creatures, outcome) == ReadFrom(lines, "", 0, old(creatureCount), decode)
      ensures creatureCount == old(creatureCount) + |creatures|
      ensures isDoneReading <==> outcome.Done?
      ensures doneEvents == old(doneEvents) + (if outcome.Done? then 1 else 0)
    {
      isDoneReading := false;
      creatures, outcome := ReadLines(lines, creatureCount, decode);
      creatureCount := creatureCount + |creatures|;
      if outcome.Done? {
        isDoneReading := true;
        doneEvents := doneEvents + 1;
      }
    }
  }

  // ---------------------------------------------------------------------------
  // Properties
  // ---------------------------------------------------------------------------

  function ChunkTexts(chunks: seq<Chunk>): string {
    if |chunks| == 0 then "" else chunks[0].text + ChunkTexts(chunks[1..])
  }

  lemma {:induction false} CompleteChunkTexts(texts: seq<string>)
    ensures ChunkTexts(CompleteChunks(texts)) == Concat(texts)
    decreases |texts|
  {
    if |texts| > 0 {
      CompleteChunkTexts(texts[1..]);
    }
  }

  lemma {:induction false} ChunkTextsAppend(a: seq<Chunk>, b: seq<Chunk>)
    ensures ChunkTexts(a + b) == ChunkTexts(a) + ChunkTexts(b)
    decreases |a|
  {
    if |a| == 0 {
      assert a + b == b;
    } else {
      ChunkTextsAppend(a[1..], b);
      assert (a + b)[1..] == a[1..] + b;
    }
  }

  /** A line that does not throw ends in exactly one incomplete tuple, after
      one complete tuple per closed object, and the texts of all the tuples
      together are the past text followed by the line, untrimmed. */
  lemma {:induction false} ChunksCoverLine(past: string, line: string, count: int)
    ensures var f := Scan(count, past, line);
      var c := ChunksOf(f);
      ThrownOf(f).None? ==>
        |c| >= 1 && !c[|c| - 1].complete &&
        (forall k :: 0 <= k < |c| - 1 ==> c[k].complete && c[k].count == 0) &&
        ChunkTexts(c) == past + line
  {
    var f := Scan(count, past, line);
    if f.end.Open? {
      var last := Chunk(f.end.rest, false, f.end.count);
      FrameConserves(count, past, "", line);
      CompleteChunkTexts(f.texts);
      ChunkTextsAppend(CompleteChunks(f.texts), [last]);
      assert ChunkTexts([last]) == f.end.rest + "";
      assert past + "" == past;
    }
  }

  /** The creatures of a reading are numbered consecutively from `next`. */
  lemma {:induction false} ReadNumbersInOrder<T>(lines: seq<string>, past: string, count: int, next: int,
                                                 decode: string -> Result<T, string>)
    ensures forall k :: 0 <= k < |ReadFrom(lines, past, count, next, decode).creatures| ==>
      ReadFrom(lines, past, count, next, decode).creatures[k].index == next + k
    decreases |lines|
  {
    if |lines| > 0 && lines[0] != Terminator {
      var s := ReadLine(lines[0], past, count, next, decode);
      if s.stop.None? {
        var rest := ReadFrom(lines[1..], s.past, s.count, next + |s.made|, decode);
        ReadNumbersInOrder(lines[1..], s.past, s.count, next + |s.made|, decode);
        var all := s.made + rest.creatures;
        forall k | 0 <= k < |all|
          ensures all[k].index == next + k
        {
          if k >= |s.made| {
            assert all[k] == rest.creatures[k - |s.made|];
            assert rest.creatures[k - |s.made|].index == next + |s.made| + (k - |s.made|);
          } else {
            var f := Scan(count, past, lines[0]);
            assert s.made == Numbered(Decoded(f.texts, decode).values, next);
            assert all[k] == s.made[k];
          }
        }
      }
    }
  }

  /** Reading stops at `END`: nothing after it is looked at. */
  lemma {:induction false} ReadStopsAtEnd<T>(lines: seq<string>, later: seq<string>, past: string, count: int,
                                             next: int, decode: string -> Result<T, string>)
    ensures ReadFrom(lines + [Terminator] + later, past, count, next, decode) ==
      ReadFrom(lines + [Terminator], past, count, next, decode)
    decreases |lines|
  {
    var a := lines + [Terminator] + later;
    var b := lines + [Terminator];
    if |lines| == 0 {
      assert a[0] == Terminator && b[0] == Terminator;
    } else {
      assert a[0] == lines[0] && b[0] == lines[0];
      assert a[1..] == lines[1..] + [Terminator] + later && b[1..] == lines[1..] + [Terminator];
      if lines[0] != Terminator {
        var s := ReadLine(lines[0], past, count, next, decode);
        if s.stop.None? {
          ReadStopsAtEnd(lines[1..], later, s.past, s.count, next + |s.made|, decode);
        }
      }
    }
  }
}
