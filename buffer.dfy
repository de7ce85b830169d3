/**
 * `PipeCommunicatorBuffer`: lines read from the pipe are queued and handed on
 * one at a time, the next one only after the consumer calls `AcceptNext`.
 *
 * The buffer's loop runs concurrently with the reader and the consumer; here
 * each wake-up of the loop is one atomic step, and when both events it waits
 * for are set the scheduler's choice of winner is the `closeWins` argument.
 */
module CommunicatorBuffer {
  import opened Wrappers

  /** Everything the buffer and its loop hold. `holding` is a line the loop
      has dequeued and is waiting to pass on; `delivered`, `enqueued` and
      `accepts` record the history (lines handed to `onBufferOut`, lines
      given to `OnReadLine`, calls to `AcceptNext`). */
  datatype BufferState = BufferState(
    buffer: seq<string>,
    permit: bool,
    hasItem: bool,
    closed: bool,
    holding: Option<string>,
    loopDone: bool,
    delivered: seq<string>,
    enqueued: seq<string>,
    accepts: nat)

  /** The events an outside caller or the scheduler can cause. */
  datatype Event =
    | LineRead(line: string)
    | Accepted
    | Closing
    | Woken(closeWins: bool)

  /** The pass-next event starts set; the other two start clear. */
  function Initial(): BufferState {
    BufferState([], true, false, false, None, false, [], [], 0)
  }

  function Held(h: Option<string>): seq<string> {
    if h.Some? then [h.value] else []
  }

  /** `OnReadLine`: append and signal, never waiting. */
  function OnReadLine(s: BufferState, line: string): (r: BufferState)
    ensures r.buffer == s.buffer + [line] && r.hasItem
    ensures r.delivered == s.delivered && r.holding == s.holding && r.permit == s.permit
  {
    s.(buffer := s.buffer + [line], hasItem := true, enqueued := s.enqueued + [line])
  }

  /** The loop's attempt to dequeue after a wake-up or after a delivery: the
      next line is held, or an empty buffer clears the has-item event. */
  function TryDequeue(s: BufferState): BufferState {
    if |s.buffer| > 0 then s.(holding := Some(s.buffer[0]), buffer := s.buffer[1..])
    else s.(holding := None, hasItem := false)
  }

  /** One wake-up of `BufferLoop`. Waiting for an item, it wakes when the
      has-item or the close event is set; holding a line, when the pass-next
      or the close event is set. When close wins the loop ends and a held line
      is dropped. Otherwise it dequeues, or passes the held line on, consuming
      the auto-reset permit, and dequeues again. With neither event set it
      stays asleep. */
  function LoopWake(s: BufferState, closeWins: bool): BufferState {
    if s.loopDone then s
    else
      var ready := if s.holding.None? then s.hasItem else s.permit;
      if s.closed && (closeWins || !ready) then s.(loopDone := true, holding := None)
      else if !ready then s
      else if s.holding.None? then TryDequeue(s)
      else TryDequeue(s.(permit := false, delivered := s.delivered + [s.holding.value]))
  }

  function Apply(s: BufferState, e: Event): BufferState {
    match e
    case LineRead(line) => OnReadLine(s, line)
    case Accepted => s.(permit := true, accepts := s.accepts + 1)
    case Closing => s.(closed := true)
    case Woken(closeWins) => LoopWake(s, closeWins)
  }

  function Run(s: BufferState, events: seq<Event>): BufferState
    decreases |events|
  {
    if |events| == 0 then s else Run(Apply(s, events[0]), events[1..])
  }

  /** What the buffer keeps true: the lines passed on are the first lines
      read, in order, and until the loop ends every line read is passed on,
      held or queued; the permit does not accumulate, so at most one line more
      than the number of `AcceptNext` calls is passed on; and a non-empty
      buffer has its has-item event set. */
  ghost predicate Inv(s: BufferState) {
    s.delivered <= s.enqueued &&
    (!s.loopDone ==> s.enqueued == s.delivered + Held(s.holding) + s.buffer) &&
    |s.delivered| + (if s.permit then 1 else 0) <= 1 + s.accepts &&
    (|s.buffer| > 0 ==> s.hasItem)
  }

  lemma InitialInv()
    ensures Inv(Initial())
  {
  }

  /** Every event keeps the invariant. */
  lemma ApplyKeepsInv(s: BufferState, e: Event)
    requires Inv(s)
    ensures Inv(Apply(s, e))
  {
    match e
    case LineRead(line) => ReadKeepsInv(s, line);
    case Accepted =>
    case Closing =>
    case Woken(closeWins) =>
      if !s.loopDone && s.holding.None? {
        DequeueKeepsInv(s);
      } else if !s.loopDone && s.permit {
        PassKeepsInv(s);
      }
  }

  lemma ReadKeepsInv(s: BufferState, line: string)
    requires Inv(s)
    ensures Inv(OnReadLine(s, line))
  {
    if !s.loopDone {
      assert s.enqueued + [line] == s.delivered + Held(s.holding) + (s.buffer + [line]);
    }
  }

  /** A wake-up with nothing held that dequeues. */
  lemma DequeueKeepsInv(s: BufferState)
    requires Inv(s) && !s.loopDone && s.holding.None?
    ensures Inv(TryDequeue(s))
  {
    if |s.buffer| > 0 {
      assert s.buffer == [s.buffer[0]] + s.buffer[1..];
    }
  }

  /** A wake-up that passes the held line on and dequeues the next. */
  lemma PassKeepsInv(s: BufferState)
    requires Inv(s) && !s.loopDone && s.holding.Some? && s.permit
    ensures Inv(TryDequeue(s.(permit := false, delivered := s.delivered + [s.holding.value])))
  {
    var d := s.delivered + [s.holding.value];
    assert s.enqueued == d + s.buffer;
    if |s.buffer| > 0 {
      assert s.buffer == [s.buffer[0]] + s.buffer[1..];
    }
  }

  /** Any run from the start keeps the invariant, so whatever the
      interleaving, the consumer sees a prefix of the lines read and at most
      one line more than it accepted. */
  lemma {:induction false} RunKeepsInv(s: BufferState, events: seq<Event>)
    requires Inv(s)
    ensures Inv(Run(s, events))
    ensures s.delivered <= Run(s, events).delivered
    decreases |events|
  {
    if |events| > 0 {
      ApplyKeepsInv(s, events[0]);
      ApplyPassesOnInOrder(s, events[0]);
      RunKeepsInv(Apply(s, events[0]), events[1..]);
    }
  }

  /** Lines are passed on one at a time: an event passes on at most one line,
      and the ones passed on earlier stay as they were. */
  lemma ApplyPassesOnInOrder(s: BufferState, e: Event)
    ensures s.delivered <= Apply(s, e).delivered
    ensures |Apply(s, e).delivered| <= |s.delivered| + 1
    ensures |Apply(s, e).delivered| == |s.delivered| + 1 ==>
      e.Woken? && s.permit && !Apply(s, e).permit && s.holding.Some? &&
      Apply(s, e).delivered == s.delivered + [s.holding.value]
  {
  }

  lemma {:induction false} RunFromStart(events: seq<Event>)
    ensures var r := Run(Initial(), events);
      r.delivered <= r.enqueued && |r.delivered| <= 1 + r.accepts
  {
    InitialInv();
    RunKeepsInv(Initial(), events);
  }

  /** The permit starts set: the first line read is passed on without any
      `AcceptNext`, and a second one must wait for it. */
  lemma FirstLineNeedsNoAccept(a: string, b: string)
    ensures var r := Run(Initial(), [LineRead(a), Woken(false), Woken(false)]);
      r.delivered == [a] && r.accepts == 0 && !r.permit
    ensures var r := Run(Initial(), [LineRead(a), LineRead(b), Woken(false), Woken(false), Woken(false)]);
      r.delivered == [a] && r.holding == Some(b)
  {
    var w := Woken(false);
    var s1 := Apply(Initial(), LineRead(a));
    var s2 := Apply(s1, w);
    assert s2.holding == Some(a) && s2.permit;
    var s3 := Apply(s2, w);
    RunUnfolds(Initial(), [LineRead(a), w, w]);
    RunUnfolds(s1, [w, w]);
    RunUnfolds(s2, [w]);
    assert Run(s3, []) == s3;
    var t1 := Apply(Initial(), LineRead(a));
    var t2 := Apply(t1, LineRead(b));
    var t3 := Apply(t2, w);
    var t4 := Apply(t3, w);
    var t5 := Apply(t4, w);
    assert t3.holding == Some(a) && t3.buffer == [b];
    assert t4.delivered == [a] && t4.holding == Some(b) && !t4.permit;
    RunUnfolds(Initial(), [LineRead(a), LineRead(b), w, w, w]);
    RunUnfolds(t1, [LineRead(b), w, w, w]);
    RunUnfolds(t2, [w, w, w]);
    RunUnfolds(t3, [w, w]);
    RunUnfolds(t4, [w]);
    assert Run(t5, []) == t5;
  }

  lemma RunUnfolds(s: BufferState, events: seq<Event>)
    requires |events| > 0
    ensures Run(s, events) == Run(Apply(s, events[0]), events[1..])
  {
  }

  /** The has-item event is cleared only by a dequeue that finds the buffer
      empty. */
  lemma HasItemClearedOnlyWhenEmpty(s: BufferState, e: Event)
    requires s.hasItem && !Apply(s, e).hasItem
    ensures e.Woken? && !s.loopDone && s.buffer == [] && !Apply(s, e).loopDone
    ensures Apply(s, e).holding == None
  {
  }

  /** Once the loop has ended nothing more is passed on; when close wins the
      wake-up, the loop ends and drops the line it was holding. */
  lemma CloseEndsDelivery(s: BufferState, e: Event, closeWins: bool)
    ensures s.loopDone ==> Apply(s, e).delivered == s.delivered && Apply(s, e).loopDone
    ensures s.closed && closeWins && !s.loopDone ==>
      var r := LoopWake(s, closeWins);
      r.loopDone && r.holding == None && r.delivered == s.delivered
    ensures s.closed && !s.permit && s.holding.Some? ==> LoopWake(s, closeWins).delivered == s.delivered
  {
  }

  /** After `Close`, the loop ends at its next wake-up unless that wake-up
      was raced by the event it was waiting on. */
  lemma {:induction false} ClosedLoopEnds(s: BufferState, events: seq<Event>)
    requires s.closed
    requires forall k :: 0 <= k < |events| ==> events[k] == Woken(true)
    requires |events| > 0
    ensures Run(s, events).loopDone && Run(s, events).delivered == s.delivered
    decreases |events|
  {
    var s1 := Apply(s, events[0]);
    assert s1.loopDone && s1.delivered == s.delivered;
    if |events| > 1 {
      ClosedLoopEnds(s1, events[1..]);
    }
  }

  class PipeCommunicatorBuffer {
    var buffer: seq<string>
    var permit: bool
    var hasItem: bool
    var closed: bool
    var holding: Option<string>
    var loopDone: bool
    var delivered: seq<string>
    var enqueued: seq<string>
    var accepts: nat

    function State(): BufferState
      reads this
    {
      BufferState(buffer, permit, hasItem, closed, holding, loopDone, delivered, enqueued, accepts)
    }

    constructor ()
      ensures State() == Initial() && Inv(State())
    {
      buffer, permit, hasItem, closed, holding := [], true, false, false, None;
      loopDone, delivered, enqueued, accepts := false, [], [], 0;
    }

    method OnReadLine(line: string)
      requires Inv(State())
      modifies this
      ensures State() == Apply(old(State()), LineRead(line)) && Inv(State())
    {
      ApplyKeepsInv(State(), LineRead(line));
      buffer := buffer + [line];
      enqueued := enqueued + [line];
      hasItem := true;
    }

    method AcceptNext()
      requires Inv(State())
      modifies this
      ensures State() == Apply(old(State()), Accepted) && Inv(State())
    {
      ApplyKeepsInv(State(), Accepted);
      permit := true;
      accepts := accepts + 1;
    }

    method Close()
      requires Inv(State())
      modifies this
      ensures State() == Apply(old(State()), Closing) && Inv(State())
    {
      ApplyKeepsInv(State(), Closing);
      closed := true;
    }

    /** One wake-up of `BufferLoop`; `out` is the line passed to `onBufferOut`. */
    method BufferLoopStep(closeWins: bool) returns (out: Option<string>)
      requires Inv(State())
      modifies this
      ensures State() == Apply(old(State()), Woken(closeWins)) && Inv(State())
      ensures out.Some? <==> |delivered| == |old(delivered)| + 1
      ensures out.Some? ==> delivered == old(delivered) + [out.value]
    {
      ApplyKeepsInv(State(), Woken(closeWins));
      ApplyPassesOnInOrder(State(), Woken(closeWins));
      out := None;
      if loopDone {
        return;
      }
      var ready := if holding.None? then hasItem else permit;
      if closed && (closeWins || !ready) {
        loopDone, holding := true, None;
      } else if ready {
        if holding.Some? {
          out := holding;
          permit := false;
          delivered := delivered + [holding.value];
        }
        if |buffer| > 0 {
          holding := Some(buffer[0]);
          buffer := buffer[1..];
        } else {
          holding, hasItem := None, false;
        }
      }
    }
  }
}
