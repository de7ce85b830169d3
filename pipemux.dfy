/**
 * `PipeMultiplexer`: one pipe shared by several creatures. Outgoing lines are
 * prefixed with the creature's id; incoming lines `<id> <payload>` are routed
 * into a per-id queue until the controller sends `QUIT` or the stream ends.
 */
module PipeMultiplexing {
  import opened Wrappers
  import opened Text

  /** `string.IndexOf(char)`: the first position of `c`, or -1. */
  function IndexOf(s: string, c: char): (r: int)
    ensures -1 <= r < |s|
    ensures r == -1 <==> c !in s
    ensures r >= 0 ==> s[r] == c && c !in s[..r]
  {
    if |s| == 0 then -1
    else if s[0] == c then 0
    else
      var r := IndexOf(s[1..], c);
      assert s[1..][..if r < 0 then 0 else r] == s[1..1 + if r < 0 then 0 else r];
      if r < 0 then -1 else r + 1
  }

  /** The `{id} {s}` line `WriteLine(id, s)` sends. */
  function IdLine(id: int, s: string): string {
    IntToString(id) + " " + s
  }

  /** The split in `ReadLoop`: the id is the text before the first space, the
      payload everything after it. A line without a space makes `Substring`
      throw, and an id `int.Parse` refuses throws as well. */
  function SplitIdLine(line: string): Result<(int, string), string> {
    var i := IndexOf(line, ' ');
    if i < 0 then Failure("ArgumentOutOfRangeException")
    else
      match ParseInt32(line[..i])
      case Success(id) => Success((id, line[i + 1..]))
      case Failure(FormatError) => Failure("FormatException")
      case Failure(OverflowError) => Failure("OverflowException")
  }

  /** The lines queued for one id; an id without a queue reads as empty. */
  function Queue(table: map<int, seq<string>>, id: int): seq<string> {
    if id in table then table[id] else []
  }

  /** `MultiplexLine` on the table: the payload joins the tail of its id's
      queue, which is created if absent. */
  function Deliver(table: map<int, seq<string>>, id: int, payload: string): map<int, seq<string>> {
    table[id := Queue(table, id) + [payload]]
  }

  /** What `ReadLoop` makes of one line: `QUIT`, a routed line, or an
      exception. */
  datatype Incoming = QuitIn | IdPayload(id: int, payload: string) | Malformed(error: string)

  function Classify(line: string): Incoming {
    if line == "QUIT" then QuitIn
    else
      match SplitIdLine(line)
      case Success((id, payload)) => IdPayload(id, payload)
      case Failure(e) => Malformed(e)
  }

  function ClassifyAll(lines: seq<string>): (r: seq<Incoming>)
    ensures |r| == |lines|
    ensures forall k :: 0 <= k < |lines| ==> r[k] == Classify(lines[k])
  {
    seq(|lines|, k requires 0 <= k < |lines| => Classify(lines[k]))
  }

  /** What `WriteLine(id, s)` sends is routed back to `id` with payload `s`,
      whatever `s` holds. */
  lemma IdLineRoundTrip(id: int, s: string)
    requires IsInt32(id)
    ensures Classify(IdLine(id, s)) == IdPayload(id, s)
  {
    var digits := IntToString(id);
    var line := IdLine(id, s);
    assert ' ' !in digits by {
      if id < 0 {
        assert digits == "-" + NatToString(-id);
        assert AllDigits(NatToString(-id));
      } else {
        assert AllDigits(NatToString(id));
      }
    }
    assert line[..|digits|] == digits;
    assert line[|digits|] == ' ';
    assert IndexOf(line, ' ') == |digits|;
    assert line[|digits| + 1..] == s;
    ParseIntToString(id);
    assert line != "QUIT" by {
      assert line[0] == '-' || IsDigit(line[0]);
    }
  }

  /** How `ReadLoop` ends: a `QUIT` line, the end of the stream (a null line),
      or an exception from a malformed line. */
  datatype LoopEnd = QuitLine | EndOfStream | Faulted(error: string)

  /** What `ReadLoop` did: the table, the ids signalled through `onLineIn`, in
      order, how it ended and how many lines it read. */
  datatype Routed = Routed(table: map<int, seq<string>>, signalled: seq<int>, end: LoopEnd, consumed: nat)

  /** `ReadLoop` as a function of the classified lines the pipe delivers. It
      reads up to and including the first `QUIT` or malformed line, and
      routes every line before it. */
  function RouteAll(table: map<int, seq<string>>, ins: seq<Incoming>): (r: Routed)
    ensures r.consumed <= |ins| && (r.consumed == 0 <==> ins == [])
    ensures r.end.EndOfStream? ==> r.consumed == |ins|
    ensures r.end.QuitLine? ==> 0 < r.consumed && ins[r.consumed - 1] == QuitIn
    ensures r.end.Faulted? ==> 0 < r.consumed && ins[r.consumed - 1] == Malformed(r.end.error)
    decreases |ins|
  {
    if |ins| == 0 then Routed(table, [], EndOfStream, 0)
    else
      match ins[0]
      case QuitIn => Routed(table, [], QuitLine, 1)
      case Malformed(e) => Routed(table, [], Faulted(e), 1)
      case IdPayload(id, payload) =>
        var rest := RouteAll(Deliver(table, id, payload), ins[1..]);
        Routed(rest.table, [id] + rest.signalled, rest.end, rest.consumed + 1)
  }

  /** Every line read before the last one was routed and signalled. */
  lemma {:induction false} RoutedBeforeEnd(table: map<int, seq<string>>, ins: seq<Incoming>)
    ensures var r := RouteAll(table, ins);
      (forall k :: 0 <= k < r.consumed - 1 ==> ins[k].IdPayload?) &&
      |r.signalled| == (if r.end.EndOfStream? then r.consumed else r.consumed - 1)
    decreases |ins|
  {
    if |ins| > 0 && ins[0].IdPayload? {
      var next := Deliver(table, ins[0].id, ins[0].payload);
      RoutedBeforeEnd(next, ins[1..]);
      var rest := RouteAll(next, ins[1..]);
      forall k | 0 < k < rest.consumed
        ensures ins[k].IdPayload?
      {
        assert ins[k] == ins[1..][k - 1];
      }
    }
  }

  predicate AllRouted(ins: seq<Incoming>) {
    forall k :: 0 <= k < |ins| ==> ins[k].IdPayload?
  }

  /** The payloads addressed to `id`, in order. */
  function PayloadsFor(ins: seq<Incoming>, id: int): seq<string>
    requires AllRouted(ins)
  {
    if |ins| == 0 then []
    else (if ins[0].id == id then [ins[0].payload] else []) + PayloadsFor(ins[1..], id)
  }

  /** Interleaved lines reach each id's queue in their original relative
      order, after whatever was queued already; each is signalled with its
      id, and without `QUIT` the loop reads to the end of the stream. */
  lemma {:induction false} RoutedInOrder(table: map<int, seq<string>>, ins: seq<Incoming>, id: int)
    requires AllRouted(ins)
    ensures RouteAll(table, ins).end == EndOfStream
    ensures |RouteAll(table, ins).signalled| == |ins|
    ensures Queue(RouteAll(table, ins).table, id) == Queue(table, id) + PayloadsFor(ins, id)
    ensures forall k :: 0 <= k < |ins| ==> RouteAll(table, ins).signalled[k] == ins[k].id
    decreases |ins|
  {
    if |ins| > 0 {
      var next := Deliver(table, ins[0].id, ins[0].payload);
      RoutedInOrder(next, ins[1..], id);
      RoutedBeforeEnd(next, ins[1..]);
      var r := RouteAll(table, ins);
      forall k | 0 < k < |ins|
        ensures r.signalled[k] == ins[k].id
      {
        assert ins[1..][k - 1] == ins[k];
      }
    }
  }

  /** `QUIT` stops the loop: the lines after it are never read or routed. */
  lemma {:induction false} QuitStopsRouting(table: map<int, seq<string>>, routed: seq<Incoming>, later: seq<Incoming>)
    requires AllRouted(routed)
    ensures var r := RouteAll(table, routed + [QuitIn] + later);
      r.end == QuitLine && r.consumed == |routed| + 1 &&
      r.table == RouteAll(table, routed).table && r.signalled == RouteAll(table, routed).signalled
    decreases |routed|
  {
    if |routed| > 0 {
      assert (routed + [QuitIn] + later)[1..] == routed[1..] + [QuitIn] + later;
      QuitStopsRouting(Deliver(table, routed[0].id, routed[0].payload), routed[1..], later);
    } else {
      assert (routed + [QuitIn] + later)[0] == QuitIn;
    }
  }

  /** The loop of `ReadLoop` over the lines the pipe delivers, each already
      classified (classifying is pure, so doing it ahead changes nothing). */
  method RouteLines(table0: map<int, seq<string>>, ins: seq<Incoming>) returns (r: Routed)
    ensures r == RouteAll(table0, ins)
  {
    var table := table0;
    var signalled: seq<int> := [];
    var i := 0;
    assert ins[0..] == ins;
    while i < |ins|
      invariant i <= |ins|
      invariant RoutedSoFar(table0, ins, i, table, signalled)
    {
      RouteStep(table0, ins, i, table, signalled);
      match ins[i]
      case QuitIn =>
        return Routed(table, signalled, QuitLine, i + 1);
      case Malformed(e) =>
        return Routed(table, signalled, Faulted(e), i + 1);
      case IdPayload(id, payload) =>
        table := Deliver(table, id, payload);
        signalled := signalled + [id];
        i := i + 1;
    }
    assert ins[i..] == [];
    return Routed(table, signalled, EndOfStream, i);
  }

  /** After the first `i` lines, routing the rest from `table` finishes the
      routing of all of them. */
  ghost predicate RoutedSoFar(table0: map<int, seq<string>>, ins: seq<Incoming>, i: nat,
                              table: map<int, seq<string>>, signalled: seq<int>)
    requires i <= |ins|
  {
    var rest := RouteAll(table, ins[i..]);
    RouteAll(table0, ins) == Routed(rest.table, signalled + rest.signalled, rest.end, i + rest.consumed)
  }

  lemma RouteStep(table0: map<int, seq<string>>, ins: seq<Incoming>, i: nat,
                  table: map<int, seq<string>>, signalled: seq<int>)
    requires i < |ins| && RoutedSoFar(table0, ins, i, table, signalled)
    ensures ins[i].QuitIn? ==> RouteAll(table0, ins) == Routed(table, signalled, QuitLine, i + 1)
    ensures ins[i].Malformed? ==> RouteAll(table0, ins) == Routed(table, signalled, Faulted(ins[i].error), i + 1)
    ensures ins[i].IdPayload? ==>
      RoutedSoFar(table0, ins, i + 1, Deliver(table, ins[i].id, ins[i].payload), signalled + [ins[i].id])
  {
    var tail := ins[i..];
    assert tail[0] == ins[i] && tail[1..] == ins[i + 1..];
    if ins[i].QuitIn? || ins[i].Malformed? {
      assert signalled + [] == signalled;
    } else {
      var rest := RouteAll(Deliver(table, ins[i].id, ins[i].payload), ins[i + 1..]);
      assert signalled + ([ins[i].id] + rest.signalled) == signalled + [ins[i].id] + rest.signalled;
    }
  }

  class PipeMultiplexer {
    /** Whether the pipe was opened; without it writes are dropped. */
    const connected: bool
    /** The per-id line queues (`LineBuffer`). */
    var lineBuffer: map<int, seq<string>>
    /** Lines written to the pipe. */
    var written: seq<string>
    /** The ids passed to `onLineIn`, in order. */
    var lineIns: seq<int>
    /** How often `onClose` fired. */
    var closes: nat

    constructor (connected: bool)
      ensures this.connected == connected
      ensures lineBuffer == map[] && written == [] && lineIns == [] && closes == 0
    {
      this.connected := connected;
      lineBuffer, written, lineIns, closes := map[], [], [], 0;
    }

    /** `WriteLine(string)`: a missing writer is skipped. */
    method WriteLine(toWrite: string)
      modifies this
      ensures written == old(written) + (if connected then [toWrite] else [])
      ensures lineBuffer == old(lineBuffer) && lineIns == old(lineIns) && closes == old(closes)
    {
      if connected {
        written := written + [toWrite];
      }
    }

    /** `WriteLine(int, string)`: the line goes out as `{id} {toWrite}`. */
    method WriteIdLine(id: int, toWrite: string)
      modifies this
      ensures written == old(written) + (if connected then [IdLine(id, toWrite)] else [])
      ensures lineBuffer == old(lineBuffer) && lineIns == old(lineIns) && closes == old(closes)
    {
      WriteLine(IntToString(id) + " " + toWrite);
    }

    /** The queue for `id`, created empty on first use. */
    method GetBufferForID(id: int) returns (lines: seq<string>)
      modifies this
      ensures lineBuffer == old(lineBuffer)[id := Queue(old(lineBuffer), id)]
      ensures lines == Queue(old(lineBuffer), id)
      ensures written == old(written) && lineIns == old(lineIns) && closes == old(closes)
    {
      if id !in lineBuffer {
        lineBuffer := lineBuffer[id := []];
      }
      lines := lineBuffer[id];
    }

    /** `ReadLine(id)`: the oldest line for `id`; an empty queue makes
        `Dequeue` throw, and the queue has been created by then. */
    method ReadLine(id: int) returns (r: Result<string, string>)
      modifies this
      ensures var q := Queue(old(lineBuffer), id);
        (q == [] ==> r == Failure("InvalidOperationException") && lineBuffer == old(lineBuffer)[id := []]) &&
        (q != [] ==> r == Success(q[0]) && lineBuffer == old(lineBuffer)[id := q[1..]])
      ensures written == old(written) && lineIns == old(lineIns) && closes == old(closes)
    {
      var q := GetBufferForID(id);
      if q == [] {
        return Failure("InvalidOperationException");
      }
      lineBuffer := lineBuffer[id := q[1..]];
      r := Success(q[0]);
    }

    /** `MultiplexLine`: queue the payload for `id`, then signal `onLineIn(id)`. */
    method MultiplexLine(id: int, line: string)
      modifies this
      ensures lineBuffer == Deliver(old(lineBuffer), id, line)
      ensures lineIns == old(lineIns) + [id]
      ensures written == old(written) && closes == old(closes)
    {
      var q := GetBufferForID(id);
      lineBuffer := lineBuffer[id := q + [line]];
      lineIns := lineIns + [id];
    }

    /** `CloseID`: forget `id`'s queue; an unknown id is left alone. */
    method CloseID(id: int)
      modifies this
      ensures lineBuffer == old(lineBuffer) - {id}
      ensures written == old(written) && lineIns == old(lineIns) && closes == old(closes)
    {
      if id in lineBuffer {
        lineBuffer := lineBuffer - {id};
      }
    }

    method CloseAllIDs()
      modifies this
      ensures lineBuffer == map[]
      ensures written == old(written) && lineIns == old(lineIns) && closes == old(closes)
    {
      lineBuffer := map[];
    }

    /** `ReadLoop` over the lines the pipe delivers: each routed line is queued
        and signalled; `QUIT` or the end of the stream fires `onClose` once,
        while an exception ends the loop without it. Without a pipe the reader
        is null and the first read faults. */
    method ReadLoop(incoming: seq<string>) returns (end: LoopEnd, consumed: nat)
      modifies this
      ensures !connected ==>
        end == Faulted("NullReferenceException") && consumed == 0 &&
        lineBuffer == old(lineBuffer) && lineIns == old(lineIns) && closes == old(closes)
      ensures connected ==> var r := RouteAll(old(lineBuffer), ClassifyAll(incoming));
        lineBuffer == r.table && lineIns == old(lineIns) + r.signalled &&
        end == r.end && consumed == r.consumed &&
        closes == old(closes) + (if r.end.Faulted? then 0 else 1)
      ensures written == old(written)
    {
      if !connected {
        return Faulted("NullReferenceException"), 0;
      }
      var r := RouteLines(lineBuffer, ClassifyAll(incoming));
      lineBuffer := r.table;
      lineIns := lineIns + r.signalled;
      end, consumed := r.end, r.consumed;
      if !end.Faulted? {
        closes := closes + 1;
      }
    }
  }
}
