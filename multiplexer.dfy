/**
 * `MultiplexerParser`: lines of the form `<index> <line>` addressed to one
 * of several sub-parsers, and `MultiplexedParserToSubParsers`, which hands
 * each parsed line to the sub-parser for its index, creating it on first use.
 */
module Multiplexing {
  import opened Wrappers
  import opened Text
  import opened Parsing
  import C = ParserChains

  datatype MultiplexedCommand = MultiplexedCommand(index: int, command: string)

  const Pattern: string := "^(?<index>\\d+) (?<line>.*)$"

  function MultiplexError(line: string): string {
    "Could not parse line \"" + line + "\" as a multiplexed line. Expected line structure " + Pattern + "."
  }

  /** Length of the run of decimal digits that starts `s`. */
  function DigitRun(s: string): (n: nat)
    ensures n <= |s|
    ensures forall k :: 0 <= k < n ==> IsDigit(s[k])
    ensures n < |s| ==> !IsDigit(s[n])
  {
    if |s| > 0 && IsDigit(s[0]) then 1 + DigitRun(s[1..]) else 0
  }

  /** Whether the pattern matches: digits, one space, then the rest. */
  predicate Matches(line: string) {
    var n := DigitRun(line);
    0 < n < |line| && line[n] == ' ' && RestMatches(line[n + 1..])
  }

  /** `MultiplexerParser.ParseLine`. A match whose digits do not fit in 32
      bits makes `int.Parse` throw. */
  function MultiplexParse(line: string): LineResult<MultiplexedCommand> {
    if !Matches(line) then Rejected(MultiplexError(line))
    else
      var n := DigitRun(line);
      match ParseInt32(line[..n])
      case Success(i) => Parsed(Some(MultiplexedCommand(i, RestGroup(line[n + 1..]))))
      case Failure(_) => Raised("OverflowException")
  }

  /** The three outcomes, in terms of the line's shape: a line is accepted iff
      it is digits, a space and a rest without an inner line break, and its
      index fits in 32 bits; the command is the rest, and nothing else fails. */
  lemma MultiplexParseCases(line: string)
    ensures MultiplexParse(line).Rejected? <==> !Matches(line)
    ensures MultiplexParse(line).Raised? <==> Matches(line) && !IsInt32(DigitsValue(line[..DigitRun(line)]))
    ensures MultiplexParse(line).Parsed? ==>
      var n := DigitRun(line);
      var c := MultiplexParse(line).command;
      c.Some? && c.value.index == DigitsValue(line[..n]) &&
      (line == line[..n] + " " + c.value.command || line == line[..n] + " " + c.value.command + "\n")
  {
    if Matches(line) {
      var n := DigitRun(line);
      var digits := line[..n];
      assert AllDigits(digits);
      ParseDigits(digits);
      var r := line[n + 1..];
      assert line == digits + " " + r;
      if !NoNewline(r) {
        assert r == r[..|r| - 1] + "\n";
      }
    }
  }

  /** The digits of a match parse to their value when it fits in 32 bits,
      and overflow otherwise. */
  lemma ParseDigits(digits: string)
    requires |digits| > 0 && AllDigits(digits)
    ensures ParseInt32(digits).Success? <==> IsInt32(DigitsValue(digits))
    ensures ParseInt32(digits).Success? ==> ParseInt32(digits).value == DigitsValue(digits)
  {
    DigitsOfValue(digits);
    var t := TrimEndWhite(TrimStartWhite(digits));
    assert !IsWhite(digits[0]) && !IsWhite(digits[|digits| - 1]);
    assert t == digits;
    assert !(t[0] == '-' || t[0] == '+');
  }

  /** Writing `"{index} {command}"` and parsing it gives the command back. */
  lemma MultiplexRoundTrip(index: nat, command: string)
    requires IsInt32(index) && NoNewline(command)
    ensures MultiplexParse(NatToString(index) + " " + command) ==
      Parsed(Some(MultiplexedCommand(index, command)))
  {
    var digits := NatToString(index);
    var line := digits + " " + command;
    DigitRunOf(digits, " " + command);
    assert line[..|digits|] == digits && line[|digits| + 1..] == command;
    assert line[|digits|] == ' ';
    ParseIntToString(index);
    assert IntToString(index) == digits;
    assert Matches(line);
    assert RestGroup(command) == command;
  }

  lemma {:induction false} DigitRunOf(digits: string, tail: string)
    requires AllDigits(digits) && |tail| > 0 && !IsDigit(tail[0])
    ensures DigitRun(digits + tail) == |digits|
    decreases |digits|
  {
    if |digits| > 0 {
      assert (digits + tail)[1..] == digits[1..] + tail;
      DigitRunOf(digits[1..], tail);
    } else {
      assert digits + tail == tail;
    }
  }

  /** The id under which `OnCommandParsed` is registered as `MParser`'s callback. */
  const OnCommandParsedHandler: nat := 0

  /** `s.Replace("\n", "\n\t")`. */
  function IndentLines(s: string): string {
    if |s| == 0 then ""
    else if s[0] == '\n' then "\n\t" + IndentLines(s[1..])
    else [s[0]] + IndentLines(s[1..])
  }

  /** What a sub-parser's failure becomes: a logged error, nothing more. */
  function SubParserLog(error: string): string {
    "Could not parse multiplexed line:\n\t" + IndentLines(error)
  }

  class MultiplexedParserToSubParsers {
    const mParser: Parser<MultiplexedCommand>
    /** The runtime type of the sub-parsers it creates. */
    const subType: string
    var subParsers: map<int, C.Entry>
    /** Every line handed to a sub-parser, in order. */
    var delivered: seq<(C.Entry, string)>

    ghost predicate Valid()
      reads this, mParser
    {
      mParser.Valid() && mParser.callback == Some(OnCommandParsedHandler)
    }

    constructor (subType: string)
      ensures Valid() && fresh(mParser)
      ensures mParser.queue == [] && subParsers == map[] && delivered == [] && this.subType == subType
    {
      this.subType := subType;
      subParsers := map[];
      delivered := [];
      var p := new Parser<MultiplexedCommand>();
      p.SetOnParsedCallback(Some(OnCommandParsedHandler));
      mParser := p;
    }

    /** The sub-parser for `index`, created and recorded on first use. */
    method GetParserFromIndex(index: int) returns (sub: C.Entry)
      modifies this
      ensures delivered == old(delivered)
      ensures index in old(subParsers) ==> sub == old(subParsers)[index] && subParsers == old(subParsers)
      ensures index !in old(subParsers) ==>
        fresh(sub) && sub.typeName == subType && subParsers == old(subParsers)[index := sub]
    {
      if index in subParsers {
        sub := subParsers[index];
      } else {
        sub := new C.Entry(subType, subType);
        subParsers := subParsers[index := sub];
      }
    }

    method RemoveParser(index: int)
      modifies this
      ensures subParsers == old(subParsers) - {index}
      ensures delivered == old(delivered)
    {
      subParsers := subParsers - {index};
    }

    /** The callback: the command's line goes to its index's sub-parser. A
        rejection is only logged; an exception propagates. */
    method OnCommandParsed(command: MultiplexedCommand, answer: (C.Entry, string) -> C.Answer)
        returns (logged: Option<string>, thrown: Option<string>)
      modifies this
      ensures command.index in subParsers
      ensures subParsers == old(subParsers)[command.index := subParsers[command.index]]
      ensures command.index in old(subParsers) ==> subParsers[command.index] == old(subParsers)[command.index]
      ensures command.index !in old(subParsers) ==> fresh(subParsers[command.index])
      ensures delivered == old(delivered) + [(subParsers[command.index], command.command)]
      ensures var a := answer(subParsers[command.index], command.command);
        logged == (if a.Declined? then Some(SubParserLog(a.error)) else None) &&
        thrown == (if a.Raised? then Some(a.error) else None)
    {
      var sub := GetParserFromIndex(command.index);
      delivered := delivered + [(sub, command.command)];
      logged, thrown := None, None;
      match answer(sub, command.command)
      case Accepted =>
      case Declined(e) => logged := Some(SubParserLog(e));
      case Raised(e) => thrown := Some(e);
    }

    /** `MParser.TryParse(line)`: parse, queue, and run the callback. The
        multiplexer's verdict does not depend on the sub-parser's. */
    method TryParse(line: string, answer: (C.Entry, string) -> C.Answer)
        returns (status: Status, logged: Option<string>, thrown: Option<string>)
      requires Valid()
      modifies this, mParser
      ensures Valid()
      ensures status == StatusOf(MultiplexParse(line))
      ensures Queues(MultiplexParse(line)) ==>
        var c := MultiplexParse(line).command.value;
        mParser.queue == old(mParser.queue) + [c] &&
        c.index in subParsers &&
        subParsers == old(subParsers)[c.index := subParsers[c.index]] &&
        (c.index in old(subParsers) ==> subParsers[c.index] == old(subParsers)[c.index]) &&
        (c.index !in old(subParsers) ==> fresh(subParsers[c.index])) &&
        delivered == old(delivered) + [(subParsers[c.index], c.command)] &&
        var a := answer(subParsers[c.index], c.command);
        logged == (if a.Declined? then Some(SubParserLog(a.error)) else None) &&
        thrown == (if a.Raised? then Some(a.error) else None)
      ensures !Queues(MultiplexParse(line)) ==>
        mParser.queue == old(mParser.queue) && delivered == old(delivered) &&
        subParsers == old(subParsers) && logged == None && thrown == None
    {
      var fired;
      status, fired := mParser.TryParse(MultiplexParse(line));
      logged, thrown := None, None;
      if fired.Some? {
        logged, thrown := OnCommandParsed(fired.value.1, answer);
      }
    }
  }
}
