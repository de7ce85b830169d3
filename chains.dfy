/**
 * `ParserStack` (UnityRLEnvironment) and `ParserQueue` (CreatureSimulation):
 * an ordered list of parsers that offers each line to its entries in the
 * order they were added and stops at the first one that accepts it. Entries
 * are added at the end and removed from the end only. What an entry answers
 * for a line is a parameter: the entries' own grammars and queues are
 * modelled elsewhere.
 */
module ParserChains {
  import opened Wrappers
  import opened Text

  /** A parser object in a chain, by reference; `typeName` is its runtime
      type and `name` what its `ToString` gives. */
  class Entry {
    const typeName: string
    const name: string

    constructor (typeName: string, name: string)
      ensures this.typeName == typeName && this.name == name
    {
      this.typeName := typeName;
      this.name := name;
    }
  }

  /** What an entry's `TryParse` does with a line. */
  datatype Answer = Accepted | Declined(error: string) | Raised(error: string)

  /** The outcome of a chain's `TryParse`: `tried` is how many entries were
      invoked, from the first. */
  datatype Chain =
    | Parsed(message: string, tried: nat)
    | NotParsed(message: string)
    | Threw(error: string, tried: nat)

  function FailureMessage(count: nat, errors: string): string {
    "Could not be parsed by any of the " + NatToString(count) + " parsers.\nError Messages:\n" + errors
  }

  /** The entries from `i` on, with `errors` collected from those before. */
  function Walk(parsers: seq<Entry>, line: string, answer: (Entry, string) -> Answer, i: nat, errors: string): Chain
    requires i <= |parsers|
    decreases |parsers| - i
  {
    if i == |parsers| then NotParsed(FailureMessage(|parsers|, errors))
    else match answer(parsers[i], line)
      case Accepted => Parsed(errors, i + 1)
      case Declined(e) => Walk(parsers, line, answer, i + 1, errors + e + "\n")
      case Raised(e) => Threw(e, i + 1)
  }

  /** What `TryParse` does with `line`. */
  function ChainSpec(parsers: seq<Entry>, line: string, answer: (Entry, string) -> Answer): Chain {
    Walk(parsers, line, answer, 0, "")
  }

  /** The `foreach` with its early `break`. */
  method RunChain(parsers: seq<Entry>, line: string, answer: (Entry, string) -> Answer) returns (r: Chain)
    ensures r == ChainSpec(parsers, line, answer)
  {
    var cumulativeErrorMessage := "";
    var i := 0;
    while i < |parsers|
      invariant i <= |parsers|
      invariant Walk(parsers, line, answer, i, cumulativeErrorMessage) == ChainSpec(parsers, line, answer)
    {
      match answer(parsers[i], line)
      case Accepted =>
        return Parsed(cumulativeErrorMessage, i + 1);
      case Raised(e) =>
        return Threw(e, i + 1);
      case Declined(errorMessage) =>
        cumulativeErrorMessage := cumulativeErrorMessage + errorMessage + "\n";
      i := i + 1;
    }
    return NotParsed(FailureMessage(|parsers|, cumulativeErrorMessage));
  }

  /** Indexing an empty list at -1. */
  const OutOfRange: string := "ArgumentOutOfRangeException"

  function MismatchMessage(noun: string, last: Entry, passed: Entry): string {
    "Tried to pop parser from parser " + noun + ", but did not match.\nParser at end of " + noun + ": " +
      last.name + "\nPassed parser: " + passed.name
  }

  function TypeMismatchMessage(noun: string, last: Entry, typeName: string): string {
    "Tried to pop parser from parser " + noun + ", but type did not match.\nParser at end of " + noun + ": " +
      last.name + "\nPassed parser type: " + typeName
  }

  /** `PopParser(toPop)` on `parsers`: the list without its last entry, or the exception. */
  function PopSpec(noun: string, parsers: seq<Entry>, toPop: Entry): Result<seq<Entry>, string> {
    if |parsers| == 0 then Failure(OutOfRange)
    else if parsers[|parsers| - 1] != toPop then Failure(MismatchMessage(noun, parsers[|parsers| - 1], toPop))
    else Success(parsers[..|parsers| - 1])
  }

  /** `PopParser<T>()` on `parsers`; `is T` is taken as the exact runtime type. */
  function PopTypeSpec(noun: string, parsers: seq<Entry>, typeName: string): Result<Entry, string> {
    if |parsers| == 0 then Failure(OutOfRange)
    else if parsers[|parsers| - 1].typeName != typeName then
      Failure(TypeMismatchMessage(noun, parsers[|parsers| - 1], typeName))
    else Success(parsers[|parsers| - 1])
  }

  class ParserStack {
    var parsers: seq<Entry>

    constructor ()
      ensures parsers == []
    {
      parsers := [];
    }

    method AddParser(toAdd: Entry)
      modifies this
      ensures parsers == old(parsers) + [toAdd]
    {
      parsers := parsers + [toAdd];
    }

    /** `AddParser<T>()`: a new parser of type `typeName`, added and returned. */
    method AddParserOf(typeName: string, name: string) returns (added: Entry)
      modifies this
      ensures fresh(added) && added.typeName == typeName
      ensures parsers == old(parsers) + [added]
    {
      added := new Entry(typeName, name);
      parsers := parsers + [added];
    }

    method PopParser(toPop: Entry) returns (thrown: Option<string>)
      modifies this
      ensures var p := PopSpec("stack", old(parsers), toPop);
        (p.Success? ==> thrown == None && parsers == p.value) &&
        (p.Failure? ==> thrown == Some(p.error) && parsers == old(parsers))
    {
      if |parsers| == 0 {
        return Some(OutOfRange);
      }
      var lastIndex := |parsers| - 1;
      var lastParser := parsers[lastIndex];
      if lastParser != toPop {
        return Some(MismatchMessage("stack", lastParser, toPop));
      }
      parsers := parsers[..lastIndex];
      return None;
    }

    method PopParserOf(typeName: string) returns (r: Result<Entry, string>)
      modifies this
      ensures r == PopTypeSpec("stack", old(parsers), typeName)
      ensures parsers == if r.Success? then old(parsers)[..|old(parsers)| - 1] else old(parsers)
    {
      if |parsers| == 0 {
        return Failure(OutOfRange);
      }
      var lastIndex := |parsers| - 1;
      var lastParser := parsers[lastIndex];
      if lastParser.typeName != typeName {
        return Failure(TypeMismatchMessage("stack", lastParser, typeName));
      }
      parsers := parsers[..lastIndex];
      return Success(lastParser);
    }

    method TryParse(line: string, answer: (Entry, string) -> Answer) returns (r: Chain)
      ensures r == ChainSpec(parsers, line, answer)
    {
      r := RunChain(parsers, line, answer);
    }
  }

  class ParserQueue {
    var parsers: seq<Entry>

    constructor ()
      ensures parsers == []
    {
      parsers := [];
    }

    method AddParser(toAdd: Entry)
      modifies this
      ensures parsers == old(parsers) + [toAdd]
    {
      parsers := parsers + [toAdd];
    }

    /** `AddParser<T>()`: a new parser of type `typeName`, added and returned. */
    method AddParserOf(typeName: string, name: string) returns (added: Entry)
      modifies this
      ensures fresh(added) && added.typeName == typeName
      ensures parsers == old(parsers) + [added]
    {
      added := new Entry(typeName, name);
      parsers := parsers + [added];
    }

    method PopParser(toPop: Entry) returns (thrown: Option<string>)
      modifies this
      ensures var p := PopSpec("queue", old(parsers), toPop);
        (p.Success? ==> thrown == None && parsers == p.value) &&
        (p.Failure? ==> thrown == Some(p.error) && parsers == old(parsers))
    {
      if |parsers| == 0 {
        return Some(OutOfRange);
      }
      var lastIndex := |parsers| - 1;
      var lastParser := parsers[lastIndex];
      if lastParser != toPop {
        return Some(MismatchMessage("queue", lastParser, toPop));
      }
      parsers := parsers[..lastIndex];
      return None;
    }

    method PopParserOf(typeName: string) returns (r: Result<Entry, string>)
      modifies this
      ensures r == PopTypeSpec("queue", old(parsers), typeName)
      ensures parsers == if r.Success? then old(parsers)[..|old(parsers)| - 1] else old(parsers)
    {
      if |parsers| == 0 {
        return Failure(OutOfRange);
      }
      var lastIndex := |parsers| - 1;
      var lastParser := parsers[lastIndex];
      if lastParser.typeName != typeName {
        return Failure(TypeMismatchMessage("queue", lastParser, typeName));
      }
      parsers := parsers[..lastIndex];
      return Success(lastParser);
    }

    method TryParse(line: string, answer: (Entry, string) -> Answer) returns (r: Chain)
      ensures r == ChainSpec(parsers, line, answer)
    {
      r := RunChain(parsers, line, answer);
    }
  }

  // ---------------------------------------------------------------------------
  // Properties
  // ---------------------------------------------------------------------------

  /** The errors of the entries before `k`, each followed by a newline, in order. */
  function ErrorsBefore(parsers: seq<Entry>, line: string, answer: (Entry, string) -> Answer, k: nat): string
    requires k <= |parsers|
  {
    if k == 0 then ""
    else
      var a := answer(parsers[k - 1], line);
      ErrorsBefore(parsers, line, answer, k - 1) + (if a.Declined? then a.error + "\n" else "")
  }

  predicate AllDeclined(parsers: seq<Entry>, line: string, answer: (Entry, string) -> Answer, k: nat)
    requires k <= |parsers|
  {
    forall j :: 0 <= j < k ==> answer(parsers[j], line).Declined?
  }

  /** From position `i`, the walk stops at the first entry that does not
      decline, or fails with every error, in order. */
  lemma {:induction false} WalkFirstAnswer(parsers: seq<Entry>, line: string, answer: (Entry, string) -> Answer, i: nat)
    requires i <= |parsers| && AllDeclined(parsers, line, answer, i)
    ensures var w := Walk(parsers, line, answer, i, ErrorsBefore(parsers, line, answer, i));
      (w.Parsed? || w.Threw?) ==>
        var k := w.tried - 1;
        i <= k < |parsers| && AllDeclined(parsers, line, answer, k) &&
        !answer(parsers[k], line).Declined? &&
        (w.Parsed? <==> answer(parsers[k], line).Accepted?) &&
        (w.Parsed? ==> w.message == ErrorsBefore(parsers, line, answer, k)) &&
        (w.Threw? ==> w.error == answer(parsers[k], line).error)
    ensures var w := Walk(parsers, line, answer, i, ErrorsBefore(parsers, line, answer, i));
      w.NotParsed? ==>
        AllDeclined(parsers, line, answer, |parsers|) &&
        w.message == FailureMessage(|parsers|, ErrorsBefore(parsers, line, answer, |parsers|))
    decreases |parsers| - i
  {
    if i < |parsers| {
      var a := answer(parsers[i], line);
      if a.Declined? {
        var before := ErrorsBefore(parsers, line, answer, i);
        assert ErrorsBefore(parsers, line, answer, i + 1) == before + (a.error + "\n");
        assert before + a.error + "\n" == before + (a.error + "\n");
        assert AllDeclined(parsers, line, answer, i + 1);
        WalkFirstAnswer(parsers, line, answer, i + 1);
      }
    }
  }

  /** `TryParse` succeeds exactly when some entry accepts and every entry
      before it declines; that entry is the last one invoked, and the message
      holds the errors of the entries before it. On failure every entry
      declined and the message counts them and lists their errors in order. */
  lemma FirstSuccessWins(parsers: seq<Entry>, line: string, answer: (Entry, string) -> Answer)
    ensures var r := ChainSpec(parsers, line, answer);
      r.Parsed? <==>
        exists k :: 0 <= k < |parsers| && answer(parsers[k], line).Accepted? && AllDeclined(parsers, line, answer, k)
    ensures var r := ChainSpec(parsers, line, answer);
      r.Parsed? ==>
        0 < r.tried <= |parsers| &&
        answer(parsers[r.tried - 1], line).Accepted? && AllDeclined(parsers, line, answer, r.tried - 1) &&
        r.message == ErrorsBefore(parsers, line, answer, r.tried - 1)
    ensures var r := ChainSpec(parsers, line, answer);
      r.NotParsed? ==> r.message == FailureMessage(|parsers|, ErrorsBefore(parsers, line, answer, |parsers|))
  {
    WalkFirstAnswer(parsers, line, answer, 0);
    assert ErrorsBefore(parsers, line, answer, 0) == "";
  }

  /** An empty chain fails every line, counting zero parsers. */
  lemma EmptyChainFails(line: string, answer: (Entry, string) -> Answer)
    ensures ChainSpec([], line, answer) == NotParsed(FailureMessage(0, ""))
    ensures FailureMessage(0, "") == "Could not be parsed by any of the 0 parsers.\nError Messages:\n"
  {
    ZeroParsersMessage();
  }

  lemma ZeroParsersMessage()
    ensures FailureMessage(0, "") == "Could not be parsed by any of the 0 parsers.\nError Messages:\n"
  {
    assert NatToString(0) == "0";
  }

  /** Popping what was just added restores the chain; popping the wrong
      entry or from an empty chain changes nothing. */
  lemma AddThenPop(noun: string, parsers: seq<Entry>, e: Entry)
    ensures PopSpec(noun, parsers + [e], e) == Success(parsers)
    ensures |parsers| > 0 && parsers[|parsers| - 1] != e ==> PopSpec(noun, parsers, e).Failure?
  {
    assert (parsers + [e])[..|parsers|] == parsers;
  }
}
