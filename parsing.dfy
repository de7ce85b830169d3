/**
 * The parser base class of the UnityRLEnvironment project: a line is handed to
 * a concrete grammar (`ParseLine`), and a produced command is queued for
 * `Next`, signalled through a manual-reset event and passed to an optional
 * callback.
 */
module Parsing {
  import opened Wrappers

  /** What a concrete grammar's `ParseLine` did with one line. */
  datatype LineResult<C> =
    | Parsed(command: Option<C>)   // returned true; `None` is the "nothing to queue" success
    | Rejected(error: string)      // returned false with an error message
    | Raised(error: string)        // threw; the exception leaves `TryParse` untouched

  /** What `TryParse` reports to its caller. */
  datatype Status = Succeeded | Failed(error: string) | Threw(error: string)

  /** `TryParse` passes the grammar's verdict through unchanged. */
  function StatusOf<C>(r: LineResult<C>): Status {
    match r
    case Parsed(_) => Succeeded
    case Rejected(e) => Failed(e)
    case Raised(e) => Threw(e)
  }

  /** Whether `TryParse` queues something for this verdict. */
  predicate Queues<C>(r: LineResult<C>) {
    r.Parsed? && r.command.Some?
  }

  /** An awaited command: available at once, or the caller must wait for the event. */
  datatype Awaited<C> = Ready(command: C) | Waiting

  class Parser<C> {
    /** Parsed commands not yet taken by `Next`, oldest first. */
    var queue: seq<C>
    /** The manual-reset event signalled when a command is queued. */
    var eventSet: bool
    /** The handler registered with `SetOnParsedCallback`, by identity. */
    var callback: Option<nat>

    /** The event is set exactly while a command is waiting. */
    ghost predicate Valid()
      reads this
    {
      eventSet <==> |queue| > 0
    }

    constructor ()
      ensures Valid()
      ensures queue == [] && !eventSet && callback == None
    {
      queue := [];
      eventSet := false;
      callback := None;
    }

    /** Runs the grammar's verdict through the queue. A queued command is also
        handed to the registered callback, returned in `fired` for the caller to run. */
    method TryParse(result: LineResult<C>) returns (status: Status, fired: Option<(nat, C)>)
      requires Valid()
      modifies this
      ensures Valid()
      ensures status == StatusOf(result)
      ensures callback == old(callback)
      ensures Queues(result) ==>
        queue == old(queue) + [result.command.value] && eventSet &&
        fired == (if callback.Some? then Some((callback.value, result.command.value)) else None)
      ensures !Queues(result) ==> queue == old(queue) && eventSet == old(eventSet) && fired == None
    {
      status := StatusOf(result);
      fired := None;
      if Queues(result) {
        var command := result.command.value;
        queue := queue + [command];
        eventSet := true;
        if callback.Some? {
          fired := Some((callback.value, command));
        }
      }
    }

    /** `Next` and `TryDequeueWithEvent`: the oldest command, if any; the event
        is reset when this dequeue empties the queue. */
    method Next() returns (command: Option<C>)
      requires Valid()
      modifies this
      ensures Valid()
      ensures callback == old(callback)
      ensures old(queue) == [] ==> command == None && queue == [] && eventSet == old(eventSet)
      ensures old(queue) != [] ==> command == Some(old(queue)[0]) && queue == old(queue)[1..]
      ensures old(queue) != [] && queue == [] ==> !eventSet
      ensures queue != [] ==> eventSet == old(eventSet)
    {
      if |queue| == 0 {
        command := None;
      } else {
        command := Some(queue[0]);
        queue := queue[1..];
        if |queue| == 0 {
          eventSet := false;
        }
      }
    }

    /** The first half of `GetCommandAsync`: a waiting command is dequeued and
        returned at once; otherwise the caller waits on the event. */
    method GetCommandAsync() returns (r: Awaited<C>)
      requires Valid()
      modifies this
      ensures Valid()
      ensures callback == old(callback)
      ensures old(queue) == [] ==> r == Waiting && queue == old(queue) && eventSet == old(eventSet)
      ensures old(queue) != [] ==> r == Ready(old(queue)[0]) && queue == old(queue)[1..]
    {
      var c := Next();
      if c.Some? {
        r := Ready(c.value);
      } else {
        r := Waiting;
      }
    }

    /** The second half of `GetCommandAsync`, once the event has woken the
        waiter: dequeue, and throw if nothing was there. Because the event is
        set only while the queue is non-empty, a wake-up always finds a command. */
    method ResumeAfterWait() returns (r: Result<C, string>)
      requires Valid()
      modifies this
      ensures Valid()
      ensures callback == old(callback)
      ensures old(queue) == [] ==> r.Failure? && queue == old(queue) && eventSet == old(eventSet)
      ensures old(queue) != [] ==> r == Success(old(queue)[0]) && queue == old(queue)[1..]
      ensures old(eventSet) ==> r.Success?
    {
      var c := Next();
      if c.Some? {
        r := Success(c.value);
      } else {
        r := Failure("ParsedCommandEvent set when queue was empty on parser.");
      }
    }

    /** Replaces whatever handler was registered before. */
    method SetOnParsedCallback(handler: Option<nat>)
      modifies this
      ensures callback == handler
      ensures queue == old(queue) && eventSet == old(eventSet)
    {
      callback := handler;
    }
  }
}

/**
 * The older parser base class of the CreatureSimulation project: a queue of
 * parsed commands and nothing else; waiting for a command is not implemented.
 */
module SimParsing {
  import opened Wrappers
  import opened Parsing

  class Parser<C> {
    /** Parsed commands not yet taken by `Next`, oldest first. */
    var queue: seq<C>

    constructor ()
      ensures queue == []
    {
      queue := [];
    }

    /** Queues the command of a successful, non-empty verdict at the tail. */
    method TryParse(result: LineResult<C>) returns (status: Status)
      modifies this
      ensures status == StatusOf(result)
      ensures Queues(result) ==> queue == old(queue) + [result.command.value]
      ensures !Queues(result) ==> queue == old(queue)
    {
      status := StatusOf(result);
      if Queues(result) {
        queue := queue + [result.command.value];
      }
    }

    /** The oldest command, if any, removed from the queue. */
    method Next() returns (command: Option<C>)
      modifies this
      ensures old(queue) == [] ==> command == None && queue == []
      ensures old(queue) != [] ==> command == Some(old(queue)[0]) && queue == old(queue)[1..]
    {
      if |queue| == 0 {
        command := None;
      } else {
        command := Some(queue[0]);
        queue := queue[1..];
      }
    }

    /** Dequeues a waiting command; with an empty queue it throws
        `NotImplementedException`, since waiting was never written. */
    method GetCommandAsync() returns (r: Result<C, string>)
      modifies this
      ensures old(queue) == [] ==> r == Failure("NotImplementedException") && queue == []
      ensures old(queue) != [] ==> r == Success(old(queue)[0]) && queue == old(queue)[1..]
    {
      if |queue| == 0 {
        r := Failure("NotImplementedException");
      } else {
        r := Success(queue[0]);
        queue := queue[1..];
      }
    }
  }
}
