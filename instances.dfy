/**
 * The Python client's instance classes: `UnityInstance`
 * (`src/unity_instance.py`) and `SimulationInstance`
 * (`src/simulation_instance.py`). Each holds the current task and guards
 * every request by the task's type: IDLE, SIMULATING, or none once it has
 * quit.
 */
module ClientInstances {
  import opened Wrappers
  import opened ClientReading

  /** Any request after `quit`, where `self.task` is `None`, fails on the
      attribute lookup. */
  const NoTask: string := "AttributeError"

  /** How the f-string shows a task's type. A quit task does not override
      `get_task_type`, whose base version returns `NotImplemented`. */
  function TaskTypeName(kind: TaskKind): string {
    match kind
    case Idle => "SimulationTaskType.IDLE"
    case Experiment => "SimulationTaskType.SIMULATING"
    case Quitting => "NotImplemented"
  }

  function AnotherTask(kind: TaskKind): string {
    "Cannot start another task while task " + TaskTypeName(kind) + " is running."
  }

  const SetWhileRunning: string := "Cannot set properties whilst simulation is running."
  const QuitWhileRunning: string := "Cannot set quit whilst simulation is running."
  const EndNotStarted: string := "Cannot end simulation. No simulations have started."
  const EndTwice: string := "Cannot send end. Already sent end for this simulation."

  /** `write_line` sends each line followed by `"\n"`. */
  function Lines(items: seq<string>): (r: seq<string>)
    ensures |r| == |items| && forall i :: 0 <= i < |items| ==> r[i] == items[i] + "\n"
  {
    if |items| == 0 then [] else [items[0] + "\n"] + Lines(items[1..])
  }

  /** The guard both instances put on sending data: an experiment task that
      has not sent `END`. */
  function SendGuard(task: ReadTask?, notStarted: string, alreadyEnded: string): (err: Option<string>)
    reads task
    ensures err.None? <==> task != null && task.kind == Experiment && !task.hasSentEnd
  {
    if task == null then Some(NoTask)
    else if task.kind != Experiment then Some(notStarted)
    else if task.hasSentEnd then Some(alreadyEnded)
    else None
  }

  class UnityInstance {
    /** The current task; `None` once the instance has quit. */
    var task: ReadTask?
    /** Everything written to the pipe. */
    var written: seq<string>

    ghost predicate Valid()
      reads this, task
    {
      task != null ==> task.Valid()
    }

    /** `__init__`, after the pipe is connected: an idle task. */
    constructor ()
      ensures Valid() && task != null && fresh(task)
      ensures task.kind == Idle && task.readBuffer == [] && written == []
    {
      task := new ReadTask(Idle);
      written := [];
    }

    /** `set_property`: allowed only while idle, and it sends nothing. */
    method SetProperty(propertyName: string, value: string) returns (err: Option<string>)
      ensures err.None? <==> task != null && task.kind == Idle
      ensures task != null && task.kind != Idle ==> err == Some(SetWhileRunning)
    {
      if task == null {
        return Some(NoTask);
      }
      if task.kind != Idle {
        return Some(SetWhileRunning);
      }
      return None;
    }

    /** `run_experiment`: only from IDLE; installs a fresh experiment task and
        asks for the experiment. */
    method RunExperiment(experimentName: string) returns (err: Option<string>)
      modifies this
      ensures err.None? <==> old(task) != null && old(task).kind == Idle
      ensures err.None? ==>
        fresh(task) && task.kind == Experiment && task.readBuffer == [] &&
        !task.received && !task.hasSentEnd && Valid() &&
        written == old(written) + ["run " + experimentName + "\n"]
      ensures old(task) != null && old(task).kind != Idle ==> err == Some(AnotherTask(old(task).kind))
      ensures err.Some? ==> task == old(task) && written == old(written)
    {
      if task == null {
        return Some(NoTask);
      }
      if task.kind != Idle {
        return Some(AnotherTask(task.kind));
      }
      task := new ReadTask(Experiment);
      written := written + ["run " + experimentName + "\n"];
      err := None;
    }

    /** `send_session_initialization_data`: every item is written, in order,
        while an experiment runs and `END` has not been sent. */
    method SendSessionInitializationData(items: seq<string>) returns (err: Option<string>)
      modifies this
      ensures err == SendGuard(task, "Cannot simulate sessions before starting an experiment.",
                               "Cannot send sessions. Already sent END for this simulation.")
      ensures err.None? ==> written == old(written) + Lines(items)
      ensures err.Some? ==> written == old(written)
      ensures task == old(task)
    {
      err := SendGuard(task, "Cannot simulate sessions before starting an experiment.",
                       "Cannot send sessions. Already sent END for this simulation.");
      if err.Some? {
        return;
      }
      var i := 0;
      while i < |items|
        invariant 0 <= i <= |items| && task == old(task)
        invariant written == old(written) + Lines(items[..i])
      {
        assert Lines(items[..i + 1]) == Lines(items[..i]) + [items[i] + "\n"];
        written := written + [items[i] + "\n"];
        i := i + 1;
      }
      assert items[..i] == items;
    }

    /** `end_send_session_initialization_data`: writes `END` once and marks it
        sent, so the next call is refused. */
    method EndSendSessionInitializationData() returns (err: Option<string>)
      modifies this, task
      ensures task == old(task)
      ensures err == old(SendGuard(task, EndNotStarted, EndTwice))
      ensures err.None? ==> written == old(written) + ["END\n"] && task.hasSentEnd
      ensures err.None? ==> task.readBuffer == old(task.readBuffer) && task.received == old(task.received)
      ensures err.Some? ==> written == old(written) && (task != null ==> task.hasSentEnd == old(task.hasSentEnd))
      ensures Valid() == old(Valid())
    {
      err := SendGuard(task, EndNotStarted, EndTwice);
      if err.Some? {
        return;
      }
      written := written + ["END\n"];
      task.OnHasSentEnd();
    }

    /** `quit`: only from IDLE; writes `quit` and drops the task. */
    method Quit() returns (err: Option<string>)
      modifies this
      ensures err.None? <==> old(task) != null && old(task).kind == Idle
      ensures err.None? ==> task == null && written == old(written) + ["quit\n"]
      ensures err.Some? ==> task == old(task) && written == old(written)
      ensures old(task) != null && old(task).kind != Idle ==> err == Some(QuitWhileRunning)
    {
      if task == null {
        return Some(NoTask);
      }
      if task.kind != Idle {
        return Some(QuitWhileRunning);
      }
      written := written + ["quit\n"];
      task := null;
      err := None;
    }

    /** `read_line`: the task's answer; `None` from an experiment task ends
        the experiment and the instance is idle again. */
    method ReadLine() returns (r: Result<ReadOutcome, string>)
      requires Valid()
      modifies this, task
      ensures Valid() && written == old(written)
      ensures old(task) == null ==> r == Failure(NoTask) && task == null
      ensures old(task) != null ==>
        r.Success? && ReadResult(r.value, old(task).State()) == ReadLineSpec(old(task).kind, old(task.State()))
      ensures old(task) != null && r.value == NoMoreLines && old(task).kind == Experiment ==>
        fresh(task) && task.kind == Idle && task.readBuffer == []
      ensures old(task) != null && !(r.value == NoMoreLines && old(task).kind == Experiment) ==>
        task == old(task)
    {
      if task == null {
        return Failure(NoTask);
      }
      ReadLineValid(task.kind, task.State());
      var outcome := task.ReadLine();
      if outcome == NoMoreLines && task.kind == Experiment {
        task := new ReadTask(Idle);
      }
      r := Success(outcome);
    }
  }

  class SimulationInstance {
    var task: ReadTask?
    var written: seq<string>

    ghost predicate Valid()
      reads this, task
    {
      task != null ==> task.Valid()
    }

    constructor ()
      ensures Valid() && task != null && fresh(task)
      ensures task.kind == Idle && task.readBuffer == [] && written == []
    {
      task := new ReadTask(Idle);
      written := [];
    }

    method SetProperty(propertyName: string, value: string) returns (err: Option<string>)
      ensures err.None? <==> task != null && task.kind == Idle
      ensures task != null && task.kind != Idle ==> err == Some(SetWhileRunning)
    {
      if task == null {
        return Some(NoTask);
      }
      if task.kind != Idle {
        return Some(SetWhileRunning);
      }
      return None;
    }

    method RunExperiment(experimentName: string) returns (err: Option<string>)
      modifies this
      ensures err.None? <==> old(task) != null && old(task).kind == Idle
      ensures err.None? ==>
        fresh(task) && task.kind == Experiment && task.readBuffer == [] &&
        !task.received && !task.hasSentEnd && Valid() &&
        written == old(written) + ["run " + experimentName + "\n"]
      ensures old(task) != null && old(task).kind != Idle ==> err == Some(AnotherTask(old(task).kind))
      ensures err.Some? ==> task == old(task) && written == old(written)
    {
      if task == null {
        return Some(NoTask);
      }
      if task.kind != Idle {
        return Some(AnotherTask(task.kind));
      }
      task := new ReadTask(Experiment);
      written := written + ["run " + experimentName + "\n"];
      err := None;
    }

    /** `send_creatures`. */
    method SendCreatures(creatures: seq<string>) returns (err: Option<string>)
      modifies this
      ensures err == SendGuard(task, "Cannot simulate creatures before starting an experiment.",
                               "Cannot send creatures. Already sent END for this simulation.")
      ensures err.None? ==> written == old(written) + Lines(creatures)
      ensures err.Some? ==> written == old(written)
      ensures task == old(task)
    {
      err := SendGuard(task, "Cannot simulate creatures before starting an experiment.",
                       "Cannot send creatures. Already sent END for this simulation.");
      if err.Some? {
        return;
      }
      var i := 0;
      while i < |creatures|
        invariant 0 <= i <= |creatures| && task == old(task)
        invariant written == old(written) + Lines(creatures[..i])
      {
        assert Lines(creatures[..i + 1]) == Lines(creatures[..i]) + [creatures[i] + "\n"];
        written := written + [creatures[i] + "\n"];
        i := i + 1;
      }
      assert creatures[..i] == creatures;
    }

    /** `end_send_creatures` as written: it writes `END` but never marks it
        sent, so its own guard against a second `END` never fires. */
    method EndSendCreaturesAsWritten() returns (err: Option<string>)
      modifies this
      ensures task == old(task)
      ensures err == SendGuard(task, EndNotStarted, EndTwice)
      ensures err.None? ==> written == old(written) + ["END\n"]
      ensures err.Some? ==> written == old(written)
    {
      err := SendGuard(task, EndNotStarted, EndTwice);
      if err.Some? {
        return;
      }
      written := written + ["END\n"];
    }

    /** `end_send_creatures` as intended: `END` is sent once, as the other
        client does. */
    method EndSendCreatures() returns (err: Option<string>)
      modifies this, task
      ensures task == old(task)
      ensures err == old(SendGuard(task, EndNotStarted, EndTwice))
      ensures err.None? ==> written == old(written) + ["END\n"] && task.hasSentEnd
      ensures err.None? ==> task.readBuffer == old(task.readBuffer) && task.received == old(task.received)
      ensures err.Some? ==> written == old(written) && (task != null ==> task.hasSentEnd == old(task.hasSentEnd))
      ensures Valid() == old(Valid())
    {
      err := SendGuard(task, EndNotStarted, EndTwice);
      if err.Some? {
        return;
      }
      written := written + ["END\n"];
      task.OnHasSentEnd();
    }

    method Quit() returns (err: Option<string>)
      modifies this
      ensures err.None? <==> old(task) != null && old(task).kind == Idle
      ensures err.None? ==> task == null && written == old(written) + ["quit\n"]
      ensures err.Some? ==> task == old(task) && written == old(written)
      ensures old(task) != null && old(task).kind != Idle ==> err == Some(QuitWhileRunning)
    {
      if task == null {
        return Some(NoTask);
      }
      if task.kind != Idle {
        return Some(QuitWhileRunning);
      }
      written := written + ["quit\n"];
      task := null;
      err := None;
    }

    method ReadLine() returns (r: Result<ReadOutcome, string>)
      requires Valid()
      modifies this, task
      ensures Valid() && written == old(written)
      ensures old(task) == null ==> r == Failure(NoTask) && task == null
      ensures old(task) != null ==>
        r.Success? && ReadResult(r.value, old(task).State()) == ReadLineSpec(old(task).kind, old(task.State()))
      ensures old(task) != null && r.value == NoMoreLines && old(task).kind == Experiment ==>
        fresh(task) && task.kind == Idle && task.readBuffer == []
      ensures old(task) != null && !(r.value == NoMoreLines && old(task).kind == Experiment) ==>
        task == old(task)
    {
      if task == null {
        return Failure(NoTask);
      }
      ReadLineValid(task.kind, task.State());
      var outcome := task.ReadLine();
      if outcome == NoMoreLines && task.kind == Experiment {
        task := new ReadTask(Idle);
      }
      r := Success(outcome);
    }
  }

  /** As written, an experiment accepts `END` twice: both calls succeed and
      both write it. */
  method SecondEndAcceptedAsWritten() returns (first: Option<string>, second: Option<string>, written: seq<string>)
    ensures first == None && second == None
    ensures written == ["run x\n", "END\n", "END\n"]
  {
    var instance := new SimulationInstance();
    var started := instance.RunExperiment("x");
    assert "run " + "x" + "\n" == "run x\n";
    first := instance.EndSendCreaturesAsWritten();
    second := instance.EndSendCreaturesAsWritten();
    written := instance.written;
  }

  /** As intended, the second `END` is refused and nothing more is written. */
  method SecondEndRejected() returns (first: Option<string>, second: Option<string>, written: seq<string>)
    ensures first == None && second == Some(EndTwice)
    ensures written == ["run x\n", "END\n"]
  {
    var instance := new SimulationInstance();
    var started := instance.RunExperiment("x");
    assert "run " + "x" + "\n" == "run x\n";
    first := instance.EndSendCreatures();
    second := instance.EndSendCreatures();
    written := instance.written;
  }
}
