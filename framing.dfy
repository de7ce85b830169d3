/**
 * The brace-counting scan shared by `JsonParser.ParseLine` and
 * `FRPCreatureReader.ReadClosedJSONObjects`: each `{` opens, each `}` closes,
 * a `}` that brings the count back to zero completes one object text, and a
 * `}` that takes it below zero aborts the scan. No text is trimmed.
 */
module JsonFraming {
  import opened Wrappers

  predicate IsBracket(c: char) {
    c == '{' || c == '}'
  }

  /** How one character moves the open-bracket count. */
  function Delta(c: char): int {
    if c == '{' then 1 else if c == '}' then -1 else 0
  }

  /** Number of `{` minus number of `}`. */
  function Net(s: string): int {
    if |s| == 0 then 0 else Delta(s[0]) + Net(s[1..])
  }

  lemma {:induction false} NetAppend(a: string, b: string)
    ensures Net(a + b) == Net(a) + Net(b)
  {
    if |a| > 0 {
      NetAppend(a[1..], b);
      assert (a + b)[1..] == a[1..] + b;
    } else {
      assert a + b == b;
    }
  }

  /** `IndexOfAny({'{', '}'}, from)`: the first bracket at or after `from`, or -1. */
  function IndexOfBracket(line: string, from: nat): (r: int)
    requires from <= |line|
    ensures r == -1 || (from <= r < |line| && IsBracket(line[r]))
    ensures forall k :: from <= k < |line| && (r == -1 || k < r) ==> !IsBracket(line[k])
    decreases |line| - from
  {
    if from == |line| then -1
    else if IsBracket(line[from]) then from
    else IndexOfBracket(line, from + 1)
  }

  /** How a scan ends: with the text still open and the count, or with a `}`
      that took the count below zero (carrying the text accumulated before the
      current line segment and the negative count). */
  datatype FrameEnd = Open(rest: string, count: int) | Underflow(carried: string, count: int)

  /** The object texts completed by a scan, in order, and how it ended. */
  datatype Framing = Framing(texts: seq<string>, end: FrameEnd)

  function Prepend(texts: seq<string>, f: Framing): Framing {
    Framing(texts + f.texts, f.end)
  }

  /** The scan, one character at a time. `carried` is the pending text from
      before the current segment of the line and `seg` the characters of the
      line since the last split point. */
  function Frame(count: int, carried: string, seg: string, line: string): Framing
    decreases |line|
  {
    if |line| == 0 then Framing([], Open(carried + seg, count))
    else
      var c := line[0];
      if c == '}' && count - 1 < 0 then Framing([], Underflow(carried, count - 1))
      else if c == '}' && count - 1 == 0 then Prepend([carried + seg + [c]], Frame(0, "", "", line[1..]))
      else Frame(count + Delta(c), carried, seg + [c], line[1..])
  }

  /** The scan starting a line, with `pending` left over from earlier lines. */
  function Scan(count: int, pending: string, line: string): Framing {
    Frame(count, pending, "", line)
  }

  /** The same scan by position: `i` is the next character of `line` to look
      at and `nas` where the current segment began. */
  function FrameAt(line: string, i: nat, count: int, carried: string, nas: nat): Framing
    requires nas <= i <= |line|
    decreases |line| - i
  {
    if i == |line| then Framing([], Open(carried + line[nas..], count))
    else
      var c := line[i];
      if c == '}' && count - 1 < 0 then Framing([], Underflow(carried, count - 1))
      else if c == '}' && count - 1 == 0 then Prepend([carried + line[nas..i + 1]], FrameAt(line, i + 1, 0, "", i + 1))
      else FrameAt(line, i + 1, count + Delta(c), carried, nas)
  }

  /** Scanning by position and scanning the suffix agree. */
  lemma {:induction false} FrameAtIsFrame(line: string, i: nat, count: int, carried: string, nas: nat)
    requires nas <= i <= |line|
    ensures FrameAt(line, i, count, carried, nas) == Frame(count, carried, line[nas..i], line[i..])
    decreases |line| - i
  {
    if i == |line| {
      assert line[nas..i] == line[nas..];
    } else {
      var c := line[i];
      assert line[i..][0] == c && line[i..][1..] == line[i + 1..];
      assert line[nas..i] + [c] == line[nas..i + 1];
      if c == '}' && count - 1 < 0 {
      } else if c == '}' && count - 1 == 0 {
        FrameAtIsFrame(line, i + 1, 0, "", i + 1);
        assert line[i + 1..i + 1] == "";
        assert carried + line[nas..i] + [c] == carried + line[nas..i + 1];
      } else {
        FrameAtIsFrame(line, i + 1, count + Delta(c), carried, nas);
      }
    }
  }

  /** Characters that are not brackets change nothing but the position. */
  lemma {:induction false} SkipPlainAt(line: string, i: nat, j: nat, count: int, carried: string, nas: nat)
    requires nas <= i <= j <= |line|
    requires forall k :: i <= k < j ==> !IsBracket(line[k])
    ensures FrameAt(line, i, count, carried, nas) == FrameAt(line, j, count, carried, nas)
    decreases j - i
  {
    if i < j {
      SkipPlainAt(line, i + 1, j, count, carried, nas);
    }
  }

  /** The end of a position-based scan once no bracket is left. */
  lemma EndAt(whole: Framing, texts: seq<string>, line: string, i: nat, count: int, carried: string, nas: nat)
    requires nas <= i <= |line|
    requires forall k :: i <= k < |line| ==> !IsBracket(line[k])
    requires whole == Prepend(texts, FrameAt(line, i, count, carried, nas))
    ensures whole == Framing(texts, Open(carried + line[nas..], count))
  {
    SkipPlainAt(line, i, |line|, count, carried, nas);
    assert texts + [] == texts;
  }

  /** Without an underflow, the final count is the starting count plus the
      number of `{` minus the number of `}`: no other character moves it. */
  lemma {:induction false} FrameCount(count: int, carried: string, seg: string, line: string)
    ensures Frame(count, carried, seg, line).end.Open? ==>
      Frame(count, carried, seg, line).end.count == count + Net(line)
    decreases |line|
  {
    if |line| > 0 {
      FrameCount(if line[0] == '}' && count - 1 == 0 then 0 else count + Delta(line[0]),
                 if line[0] == '}' && count - 1 == 0 then "" else carried,
                 if line[0] == '}' && count - 1 == 0 then "" else seg + [line[0]], line[1..]);
    }
  }

  /** The scan aborts exactly when some `}` brings the running count below zero. */
  lemma {:induction false} FrameUnderflowIff(count: int, carried: string, seg: string, line: string)
    ensures Frame(count, carried, seg, line).end.Underflow? <==>
      exists k :: 0 <= k < |line| && line[k] == '}' && count + Net(line[..k + 1]) < 0
    decreases |line|
  {
    if |line| > 0 {
      var c := line[0];
      var count' := count + Delta(c);
      if !(c == '}' && count - 1 < 0) {
        var carried' := if c == '}' && count - 1 == 0 then "" else carried;
        var seg' := if c == '}' && count - 1 == 0 then "" else seg + [c];
        FrameUnderflowIff(count', carried', seg', line[1..]);
        assert line[..1] == [c] && Net(line[..1]) == Delta(c);
        forall k | 0 < k <= |line|
          ensures count + Net(line[..k]) == count' + Net(line[1..][..k - 1])
        {
          assert line[..k] == [c] + line[1..][..k - 1];
        }
        if exists k :: 0 <= k < |line| && line[k] == '}' && count + Net(line[..k + 1]) < 0 {
          var k :| 0 <= k < |line| && line[k] == '}' && count + Net(line[..k + 1]) < 0;
          assert k > 0;
          assert line[1..][k - 1] == '}' && count' + Net(line[1..][..k - 1 + 1]) < 0;
        }
        if exists k :: 0 <= k < |line| - 1 && line[1..][k] == '}' && count' + Net(line[1..][..k + 1]) < 0 {
          var k :| 0 <= k < |line| - 1 && line[1..][k] == '}' && count' + Net(line[1..][..k + 1]) < 0;
          assert line[k + 1] == '}' && count + Net(line[..k + 1 + 1]) < 0;
        }
      } else {
        assert line[..1] == [c];
      }
    }
  }

  /** A scan that starts from a non-negative count and aborts leaves the count at -1. */
  lemma {:induction false} UnderflowAtMinusOne(count: int, carried: string, seg: string, line: string)
    requires count >= 0
    ensures Frame(count, carried, seg, line).end.Underflow? ==>
      Frame(count, carried, seg, line).end.count == -1
    decreases |line|
  {
    if |line| > 0 {
      var c := line[0];
      if !(c == '}' && count - 1 < 0) {
        if c == '}' && count - 1 == 0 {
          UnderflowAtMinusOne(0, "", "", line[1..]);
        } else {
          UnderflowAtMinusOne(count + Delta(c), carried, seg + [c], line[1..]);
        }
      }
    }
  }

  /** All the characters of a line concatenated in order. */
  function Concat(texts: seq<string>): string {
    if |texts| == 0 then "" else texts[0] + Concat(texts[1..])
  }

  lemma ConcatCons(t: string, ts: seq<string>)
    ensures Concat([t] + ts) == t + Concat(ts)
  {
    assert ([t] + ts)[1..] == ts;
  }

  /** Nothing is lost or reordered: the completed texts followed by the open
      rest are exactly the pending text followed by the line. */
  lemma {:induction false} FrameConserves(count: int, carried: string, seg: string, line: string)
    ensures var f := Frame(count, carried, seg, line);
      f.end.Open? ==> Concat(f.texts) + f.end.rest == carried + seg + line
    decreases |line|
  {
    if |line| > 0 {
      var c := line[0];
      assert [c] + line[1..] == line;
      if c == '}' && count - 1 == 0 {
        var g := Frame(0, "", "", line[1..]);
        assert Frame(count, carried, seg, line) == Prepend([carried + seg + [c]], g);
        FrameConserves(0, "", "", line[1..]);
        ConcatCons(carried + seg + [c], g.texts);
        if g.end.Open? {
          calc {
            Concat([carried + seg + [c]] + g.texts) + g.end.rest;
            carried + seg + [c] + (Concat(g.texts) + g.end.rest);
            { assert Concat(g.texts) + g.end.rest == "" + "" + line[1..]; }
            carried + seg + ([c] + line[1..]);
          }
        }
      } else if !(c == '}' && count - 1 < 0) {
        assert Frame(count, carried, seg, line) == Frame(count + Delta(c), carried, seg + [c], line[1..]);
        FrameConserves(count + Delta(c), carried, seg + [c], line[1..]);
        assert carried + (seg + [c]) + line[1..] == carried + seg + ([c] + line[1..]);
      }
    }
  }

  /** A stretch of the line during which every `}` leaves the count positive
      completes nothing: it only moves into the segment and the count. */
  lemma {:induction false} FrameNoClose(count: int, carried: string, seg: string, a: string, b: string)
    requires forall k :: 0 < k <= |a| ==> count + Net(a[..k]) > 0
    ensures Frame(count, carried, seg, a + b) == Frame(count + Net(a), carried, seg + a, b)
    decreases |a|
  {
    if |a| == 0 {
      assert a + b == b && seg + a == seg && Net(a) == 0;
      assert Frame(count, carried, seg, a + b) == Frame(count, carried, seg, b);
    } else {
      var c := a[0];
      assert a[..1] == [c] && Net(a[..1]) == Delta(c);
      assert count + Delta(c) > 0;
      assert (a + b)[0] == c && (a + b)[1..] == a[1..] + b;
      forall k | 0 < k <= |a| - 1
        ensures count + Delta(c) + Net(a[1..][..k]) > 0
      {
        assert a[..k + 1] == [c] + a[1..][..k];
      }
      assert Frame(count, carried, seg, a + b) == Frame(count + Delta(c), carried, seg + [c], a[1..] + b);
      FrameNoClose(count + Delta(c), carried, seg + [c], a[1..], b);
      assert seg + [c] + a[1..] == seg + a;
    }
  }

  // ---------------------------------------------------------------------------
  // Decoding the completed texts in order, stopping at the first failure
  // ---------------------------------------------------------------------------

  /** The values decoded before the first failure, and that failure if any. */
  datatype Decoding<T> = Decoding(values: seq<T>, error: Option<string>)

  function Decoded<T>(texts: seq<string>, decode: string -> Result<T, string>): (d: Decoding<T>)
    ensures |d.values| <= |texts|
    ensures d.error.None? ==> |d.values| == |texts|
  {
    if |texts| == 0 then Decoding([], None)
    else
      var d := Decoded(texts[..|texts| - 1], decode);
      if d.error.Some? then d
      else match decode(texts[|texts| - 1])
        case Success(v) => Decoding(d.values + [v], None)
        case Failure(e) => Decoding(d.values, Some(e))
  }

  /** Texts after the first failure are never decoded. */
  lemma {:induction false} DecodedStops<T>(a: seq<string>, b: seq<string>, decode: string -> Result<T, string>)
    requires Decoded(a, decode).error.Some?
    ensures Decoded(a + b, decode) == Decoded(a, decode)
    decreases |b|
  {
    if |b| > 0 {
      var ab := a + b;
      DecodedStops(a, b[..|b| - 1], decode);
      assert ab[..|ab| - 1] == a + b[..|b| - 1];
    } else {
      assert a + b == a;
    }
  }

  /** Decoding two runs of texts one after the other. */
  lemma {:induction false} DecodedAppend<T>(a: seq<string>, b: seq<string>, decode: string -> Result<T, string>)
    requires Decoded(a, decode).error.None?
    ensures Decoded(a + b, decode) ==
      Decoding(Decoded(a, decode).values + Decoded(b, decode).values, Decoded(b, decode).error)
    decreases |b|
  {
    if |b| > 0 {
      var ab := a + b;
      DecodedAppend(a, b[..|b| - 1], decode);
      assert ab[..|ab| - 1] == a + b[..|b| - 1];
      assert ab[|ab| - 1] == b[|b| - 1];
      var da := Decoded(a, decode).values;
      var db := Decoded(b[..|b| - 1], decode).values;
      if Decoded(b[..|b| - 1], decode).error.None? {
        match decode(b[|b| - 1])
        case Success(v) => assert da + db + [v] == da + (db + [v]);
        case Failure(_) =>
      }
    } else {
      assert a + b == a;
      assert Decoded(a, decode).values + [] == Decoded(a, decode).values;
    }
  }

  /** Completing one more object text during a scan: either its decode fails,
      and then so does the whole scan's, or its value joins the decoded ones. */
  lemma DecodeNext<T>(texts: seq<string>, values: seq<T>, text: string, later: seq<string>, decode: string -> Result<T, string>)
    requires Decoded(texts, decode) == Decoding(values, None)
    ensures decode(text).Failure? ==>
      Decoded(texts + [text] + later, decode) == Decoding(values, Some(decode(text).error))
    ensures decode(text).Success? ==>
      Decoded(texts + [text], decode) == Decoding(values + [decode(text).value], None)
  {
    assert (texts + [text])[..|texts|] == texts;
    if decode(text).Failure? {
      DecodedStops(texts + [text], later, decode);
    }
  }
}
