/**
 The server object: the reader loop's variables and the JSON-line writer it shares with
 its tasks, updated in place and held, method by method, to the steps of `StdioServer`.
*/
module BackendServer {
  import opened Wire
  import opened StdioServer

  /** `createJsonLineWriter`. */
  class JsonLineWriter {
    var tail: seq<Frame>
    var emitting: bool
    var usable: bool
    var output: seq<Frame>

    constructor ()
      ensures tail == [] && !emitting && usable && output == []
    {
      tail, emitting, usable, output := [], false, true, [];
    }

    method Write(frame: Frame)
      modifies this`tail
      ensures tail == old(tail) + [frame]
    {
      tail := tail + [frame];
    }

    /** The head of the chain is reached: written, or refused for good if it does not fit. */
    method Begin(fits: bool) returns (written: bool)
      requires tail != []
      modifies this
      ensures written <==> old(usable) && fits
      ensures usable == (old(usable) && fits)
      ensures output == if written then old(output) + [old(tail)[0]] else old(output)
      ensures tail == if written then old(tail) else old(tail)[1..]
      ensures emitting == written
    {
      written := usable && fits;
      if written {
        output := output + [tail[0]];
        emitting := true;
      } else {
        usable := false;
        tail := tail[1..];
        emitting := false;
      }
    }

    /** The output's callback. */
    method End(ok: bool)
      requires tail != []
      modifies this`tail, this`emitting, this`usable
      ensures tail == old(tail)[1..] && !emitting && usable == (old(usable) && ok)
    {
      if !ok {
        usable := false;
      }
      tail := tail[1..];
      emitting := false;
    }
  }

  class BackendStdioServer {
    const maxInFlight: nat
    const writer: JsonLineWriter
    var input: seq<InputLine>
    var received: nat
    var reading: bool
    var held: Option<InputLine>
    var tasks: map<nat, Task>
    var activeRequestIds: set<RequestId>
    var correlationViolation: bool

    ghost function Abstract(): Server
      reads this, writer
    {
      Server(input, received, reading, held, tasks, activeRequestIds, writer.tail, writer.emitting, writer.usable,
             correlationViolation, writer.output)
    }

    ghost predicate Valid()
      reads this, writer
    {
      ServerOk(maxInFlight, Abstract())
    }

    constructor (maxInFlight: nat)
      ensures this.maxInFlight == maxInFlight && Valid() && Abstract() == IDLE && fresh(writer)
    {
      this.maxInFlight := maxInFlight;
      writer := new JsonLineWriter();
      input, received, reading, held := [], 0, true, None;
      tasks, activeRequestIds, correlationViolation := map[], {}, false;
      new;
      InitiallyValid();
    }

    lemma InitiallyValid()
      requires Abstract() == IDLE
      ensures Valid()
    {
      IdleOk(maxInFlight);
    }

    lemma StepKeeps(step: Step)
      requires Valid() && Enabled(maxInFlight, Abstract(), step)
      ensures ServerOk(maxInFlight, Next(maxInFlight, Abstract(), step))
    {
      NextKeeps(maxInFlight, Abstract(), step);
    }

    method Receive(line: InputLine)
      requires Valid() && received <= line.serial
      modifies this`input, this`received
      ensures Valid() && Abstract() == Next(maxInFlight, old(Abstract()), ReceiveStep(line))
    {
      hide ServerOk;
      StepKeeps(ReceiveStep(line));
      input := input + [line];
      received := line.serial + 1;
    }

    /** `failClosedOnCorrelationViolation`. */
    method FailClosed()
      modifies this`correlationViolation, this`reading, this`held
      ensures Abstract() == Violate(old(Abstract()))
    {
      correlationViolation := true;
      reading := false;
      held := None;
    }

    /** The top of the loop: stop, skip, fail closed on a duplicate, or hold the line. */
    method ReadLine()
      requires Valid() && reading && held.None? && input != []
      modifies this
      ensures Valid() && Abstract() == Next(maxInFlight, old(Abstract()), ReadStep)
    {
      hide ServerOk;
      StepKeeps(ReadStep);
      var line := input[0];
      input := input[1..];
      if !writer.usable || correlationViolation {
        reading := false;
      } else if line.blank {
      } else if line.id.Some? && line.id.value in activeRequestIds {
        FailClosed();
      } else {
        held := Some(line);
      }
    }

    /** A task slot is free: `handleLine` runs up to its first await. */
    method StartTask()
      requires Valid() && held.Some? && |tasks| < maxInFlight
      modifies this, writer
      ensures Valid() && Abstract() == Next(maxInFlight, old(Abstract()), StartStep)
    {
      hide ServerOk;
      StepKeeps(StartStep);
      var line := held.value;
      held := None;
      if !writer.usable || correlationViolation {
        reading := false;
      } else {
        HandleLine(line);
      }
    }

    method HandleLine(line: InputLine)
      modifies this, writer
      ensures Abstract() == StdioServer.HandleLine(old(Abstract()), line)
    {
      if line.id.Some? && line.id.value in activeRequestIds {
        FailClosed();
        tasks := tasks[line.serial := Task(line, false, Ended, false)];
      } else if line.refusal.Some? {
        tasks := tasks[line.serial := Task(line, false, Writing, false)];
        writer.Write(Frame(line.id, line.serial, Response(Failure(line.refusal.value))));
      } else {
        tasks := tasks[line.serial := Task(line, line.id.Some?, Working, false)];
        if line.id.Some? {
          activeRequestIds := activeRequestIds + {line.id.value};
        }
      }
    }

    /** A task hands the writer its response or its next event, and waits for it. */
    method Emit(serial: nat, body: Body)
      requires Valid() && Enabled(maxInFlight, Abstract(), EmitStep(serial, body))
      modifies this`tasks, writer
      ensures Valid() && Abstract() == Next(maxInFlight, old(Abstract()), EmitStep(serial, body))
    {
      hide ServerOk;
      StepKeeps(EmitStep(serial, body));
      writer.Write(Frame(tasks[serial].line.id, serial, body));
      tasks := tasks[serial := tasks[serial].(phase := Writing)];
    }

    method SetPhase(serial: nat, phase: Phase)
      modifies this`tasks
      ensures tasks == if serial in old(tasks) then old(tasks)[serial := old(tasks)[serial].(phase := phase)] else old(tasks)
    {
      if serial in tasks {
        tasks := tasks[serial := tasks[serial].(phase := phase)];
      }
    }

    method BeginOutput(fits: bool)
      requires Valid() && Enabled(maxInFlight, Abstract(), BeginOutputStep(fits))
      modifies this`tasks, this`reading, writer
      ensures Valid() && Abstract() == Next(maxInFlight, old(Abstract()), BeginOutputStep(fits))
    {
      hide ServerOk;
      StepKeeps(BeginOutputStep(fits));
      var frame, wasUsable := writer.tail[0], writer.usable;
      var written := writer.Begin(fits);
      if written {
        if frame.serial in tasks && Terminal(frame.body) {
          tasks := tasks[frame.serial := tasks[frame.serial].(done := true)];
        }
        assert tasks == StdioServer.BeginOutput(old(Abstract()), true).tasks;
      } else {
        if wasUsable {
          reading := false;
        }
        SetPhase(frame.serial, Ended);
      }
    }

    method EndOutput(ok: bool)
      requires Valid() && Enabled(maxInFlight, Abstract(), EndOutputStep(ok))
      modifies this`tasks, this`reading, writer
      ensures Valid() && Abstract() == Next(maxInFlight, old(Abstract()), EndOutputStep(ok))
    {
      StepKeeps(EndOutputStep(ok));
      EmittingIsUsable();
      hide ServerOk, OrderOk, OwnersOk, WriterOk, OutputOk;
      Settle(ok);
    }

    method Settle(ok: bool)
      requires writer.tail != [] && writer.usable
      modifies this`tasks, this`reading, writer
      ensures Abstract() == StdioServer.EndOutput(old(Abstract()), ok)
    {
      var frame := writer.tail[0];
      writer.End(ok);
      if !ok {
        reading := false;
      }
      SetPhase(frame.serial, if !ok || Terminal(frame.body) then Ended else Working);
    }

    lemma EmittingIsUsable()
      requires Valid() && writer.emitting
      ensures writer.usable
    {
    }

    /** A task's `finally`. */
    method Finish(serial: nat)
      requires Valid() && serial in tasks && tasks[serial].phase == Ended
      modifies this`tasks, this`activeRequestIds
      ensures Valid() && Abstract() == Next(maxInFlight, old(Abstract()), FinishStep(serial))
    {
      hide ServerOk;
      StepKeeps(FinishStep(serial));
      var task := tasks[serial];
      tasks := tasks - {serial};
      if task.registered && task.line.id.Some? {
        activeRequestIds := activeRequestIds - {task.line.id.value};
      }
    }

    method StopReading()
      requires Valid() && held.None?
      modifies this`reading
      ensures Valid() && Abstract() == Next(maxInFlight, old(Abstract()), StopReadingStep)
    {
      hide ServerOk;
      StepKeeps(StopReadingStep);
      reading := false;
    }
  }
}
