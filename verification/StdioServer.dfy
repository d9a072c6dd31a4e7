/**
 `runBackendStdioServer`: the reader loop with its bounded set of concurrent tasks, and
 the serialised JSON-line writer whose fatal state is absorbing. Input lines carry the
 serial of the write that produced them, so that every frame can be traced to the line
 it answers; the code never looks at it.
*/
module StdioServer {
  import opened Wire

  /** One framed input line: what `requestIdFromLine` finds in it, whether
      `parseBackendRequest` refuses it and how, and whether its command is `runner.stream`. */
  datatype InputLine = InputLine(serial: nat, blank: bool, id: Option<RequestId>, refusal: Option<FailureCode>, streaming: bool)

  datatype Body = Response(reply: Reply) | Event(t: EventType)

  datatype Frame = Frame(id: Option<RequestId>, serial: nat, body: Body)

  predicate Terminal(b: Body) {
    b.Response? || IsTerminal(b.t)
  }

  datatype Phase = Working | Writing | Ended

  /** `done` records that the task's terminal frame has been handed to the output. */
  datatype Task = Task(line: InputLine, registered: bool, phase: Phase, done: bool)

  datatype Server = Server(
    input: seq<InputLine>,            // framed lines the loop has not taken yet
    received: nat,                    // every line so far has a smaller serial
    reading: bool,
    held: Option<InputLine>,          // the line in the loop, waiting for a task slot
    tasks: map<nat, Task>,            // by the serial of their line
    activeRequestIds: set<RequestId>,
    queue: seq<Frame>,                // the writer's promise chain
    emitting: bool,                   // the head of the chain has been written, its callback is due
    usable: bool,
    correlationViolation: bool,
    output: seq<Frame>)               // everything handed to stdout, in order

  const IDLE := Server([], 0, true, None, map[], {}, [], false, true, false, [])

  function Violate(s: Server): Server {
    s.(correlationViolation := true, reading := false, held := None)
  }

  predicate MustStop(s: Server) {
    !s.usable || s.correlationViolation
  }

  /** The top of the reader loop. */
  function Read(s: Server): Server
    requires s.input != []
  {
    var line := s.input[0];
    var s1 := s.(input := s.input[1..]);
    if MustStop(s) then s1.(reading := false)
    else if line.blank then s1
    else if line.id.Some? && line.id.value in s.activeRequestIds then Violate(s1)
    else s1.(held := Some(line))
  }

  function Put(s: Server, serial: nat, t: Task): Server {
    s.(tasks := s.tasks[serial := t])
  }

  function Enqueue(s: Server, serial: nat, body: Body): Server
    requires serial in s.tasks
  {
    Put(s, serial, s.tasks[serial].(phase := Writing)).(queue := s.queue + [Frame(s.tasks[serial].line.id, serial, body)])
  }

  /** `handleLine` up to its first await. A line that is refused is answered with an error
      under whatever id it shows, and is not registered. */
  function HandleLine(s: Server, line: InputLine): Server {
    if line.id.Some? && line.id.value in s.activeRequestIds then
      Violate(s).(tasks := s.tasks[line.serial := Task(line, false, Ended, false)])
    else if line.refusal.Some? then
      Enqueue(Put(s, line.serial, Task(line, false, Working, false)), line.serial, Response(Failure(line.refusal.value)))
    else if line.id.Some? then
      Put(s, line.serial, Task(line, true, Working, false)).(activeRequestIds := s.activeRequestIds + {line.id.value})
    else
      Put(s, line.serial, Task(line, false, Working, false))
  }

  /** The loop goes on once a task slot is free. */
  function Start(s: Server): Server
    requires s.held.Some?
  {
    if MustStop(s) then s.(held := None, reading := false)
    else HandleLine(s.(held := None), s.held.value)
  }

  /** `markFatal`, and the rejection that ends the task whose write failed. */
  function Fatal(s: Server): Server
    requires s.queue != []
  {
    EndHead(s.(usable := false, reading := false))
  }

  function EndHead(s: Server): Server
    requires s.queue != []
  {
    var serial := s.queue[0].serial;
    s.(queue := s.queue[1..], emitting := false,
       tasks := if serial in s.tasks then s.tasks[serial := s.tasks[serial].(phase := Ended)] else s.tasks)
  }

  /** The writer reaches the head of its chain; `fits` is whether it encodes within the frame limit. */
  function BeginOutput(s: Server, fits: bool): Server
    requires s.queue != []
  {
    if !s.usable then EndHead(s)
    else if !fits then Fatal(s)
    else
      var f := s.queue[0];
      s.(output := s.output + [f], emitting := true,
         tasks := if f.serial in s.tasks
                  then s.tasks[f.serial := s.tasks[f.serial].(done := s.tasks[f.serial].done || Terminal(f.body))]
                  else s.tasks)
  }

  function EndOutput(s: Server, ok: bool): Server
    requires s.queue != []
  {
    var f := s.queue[0];
    if !ok then Fatal(s)
    else if Terminal(f.body) then EndHead(s)
    else s.(queue := s.queue[1..], emitting := false,
            tasks := if f.serial in s.tasks then s.tasks[f.serial := s.tasks[f.serial].(phase := Working)] else s.tasks)
  }

  /** A task's `finally`, and its removal from `tasks`. */
  function Finish(s: Server, serial: nat): Server
    requires serial in s.tasks
  {
    var t := s.tasks[serial];
    s.(tasks := s.tasks - {serial},
       activeRequestIds := if t.registered && t.line.id.Some? then s.activeRequestIds - {t.line.id.value} else s.activeRequestIds)
  }

  datatype Step =
    | ReceiveStep(line: InputLine)
    | ReadStep
    | StartStep
    | EmitStep(serial: nat, body: Body)
    | BeginOutputStep(fits: bool)
    | EndOutputStep(ok: bool)
    | FinishStep(serial: nat)
    | StopReadingStep         // end of input, or a framing error

  predicate Enabled(maxInFlight: nat, s: Server, step: Step) {
    match step
    case ReceiveStep(line) => s.received <= line.serial
    case ReadStep => s.reading && s.held.None? && s.input != []
    case StartStep => s.held.Some? && |s.tasks| < maxInFlight
    case EmitStep(serial, body) =>
      serial in s.tasks && s.tasks[serial].phase == Working && (s.tasks[serial].line.streaming <==> body.Event?)
    case BeginOutputStep(_) => s.queue != [] && !s.emitting
    case EndOutputStep(_) => s.queue != [] && s.emitting
    case FinishStep(serial) => serial in s.tasks && s.tasks[serial].phase == Ended
    case StopReadingStep => s.held.None?
  }

  function Next(maxInFlight: nat, s: Server, step: Step): Server
    requires Enabled(maxInFlight, s, step)
  {
    match step
    case ReceiveStep(line) => s.(input := s.input + [line], received := line.serial + 1)
    case ReadStep => Read(s)
    case StartStep => Start(s)
    case EmitStep(serial, body) => Enqueue(s, serial, body)
    case BeginOutputStep(fits) => BeginOutput(s, fits)
    case EndOutputStep(ok) => EndOutput(s, ok)
    case FinishStep(serial) => Finish(s, serial)
    case StopReadingStep => s.(reading := false)
  }

  // ----- what every reachable server satisfies

  type Tasks = map<nat, Task>

  /** A serial that belongs to the past of the loop: before the held line, which is before
      every line still in the input. */
  predicate Before(s: Server, serial: nat) {
    && serial < s.received
    && (s.held.Some? ==> serial < s.held.value.serial)
    && (forall i {:trigger s.input[i]} :: 0 <= i < |s.input| ==> serial < s.input[i].serial)
  }

  ghost predicate OrderOk(s: Server) {
    && (forall i {:trigger s.input[i]} :: 0 <= i < |s.input| ==> s.input[i].serial < s.received)
    && (forall i, j :: 0 <= i < j < |s.input| ==> s.input[i].serial < s.input[j].serial)
    && (s.held.Some? ==> s.held.value.serial < s.received)
    && (s.held.Some? ==> forall i {:trigger s.input[i]} :: 0 <= i < |s.input| ==> s.held.value.serial < s.input[i].serial)
    && (forall l :: l in s.tasks ==> Before(s, l))
    && (forall i :: 0 <= i < |s.output| ==> Before(s, s.output[i].serial))
  }

  predicate Owns(tasks: Tasks, l: nat, x: RequestId) {
    l in tasks && tasks[l].registered && tasks[l].line.id == Some(x)
  }

  /** Each active id has one owner; the held line's id has none. */
  ghost predicate OwnersOk(tasks: Tasks, active: set<RequestId>, held: Option<InputLine>) {
    && (forall l :: l in tasks && tasks[l].registered ==> tasks[l].line.id.Some?)
    && (forall l, x :: Owns(tasks, l, x) ==> x in active)
    && (forall l, m, x :: Owns(tasks, l, x) && Owns(tasks, m, x) ==> l == m)
    && (forall x :: x in active ==> exists l :: Owns(tasks, l, x))
    && (held.Some? && held.value.id.Some? ==> held.value.id.value !in active)
    && (forall l :: l in tasks ==> tasks[l].line.serial == l)
  }

  predicate QueuedOk(tasks: Tasks, queue: seq<Frame>, emitting: bool, i: nat)
    requires i < |queue|
  {
    var f := queue[i];
    && f.serial in tasks && tasks[f.serial].phase == Writing
    && f.id == tasks[f.serial].line.id
    && (tasks[f.serial].done <==> i == 0 && emitting && Terminal(f.body))
  }

  /** The writer's chain holds exactly one frame of each task that is writing, with the
      id of that task's line; only the frame being emitted can already be out. */
  ghost predicate WriterOk(tasks: Tasks, queue: seq<Frame>, emitting: bool) {
    && (emitting ==> queue != [])
    && (forall i, j :: 0 <= i < j < |queue| ==> queue[i].serial != queue[j].serial)
    && (forall i :: 0 <= i < |queue| ==> QueuedOk(tasks, queue, emitting, i))
    && (forall l :: l in tasks && tasks[l].phase == Working ==> !tasks[l].done)
  }

  /** After a line's terminal frame nothing more is said about that line. */
  ghost predicate OutputOk(tasks: Tasks, output: seq<Frame>) {
    && (forall i, j :: 0 <= i < j < |output| && Terminal(output[i].body) ==> output[j].serial != output[i].serial)
    && (forall i :: 0 <= i < |output| && Terminal(output[i].body) && output[i].serial in tasks ==>
          tasks[output[i].serial].done)
  }

  ghost predicate ServerOk(maxInFlight: nat, s: Server) {
    && |s.tasks| <= maxInFlight
    && OrderOk(s)
    && OwnersOk(s.tasks, s.activeRequestIds, s.held)
    && WriterOk(s.tasks, s.queue, s.emitting)
    && OutputOk(s.tasks, s.output)
    && (s.emitting ==> s.usable)
  }

  lemma IdleOk(maxInFlight: nat)
    ensures ServerOk(maxInFlight, IDLE)
  {
  }

  /** The order facts survive whatever only moves the loop forward. */
  lemma OrderSurvives(s: Server, s': Server)
    requires OrderOk(s)
    requires s'.received == s.received && s'.input == s.input && (s'.held == s.held || s'.held.None?)
    requires s'.tasks.Keys <= s.tasks.Keys && s'.output == s.output
    ensures OrderOk(s')
  {
    assert forall l :: Before(s, l) ==> Before(s', l);
  }

  lemma ReadKeeps(maxInFlight: nat, s: Server)
    requires ServerOk(maxInFlight, s) && Enabled(maxInFlight, s, ReadStep)
    ensures ServerOk(maxInFlight, Read(s))
  {
    hide WriterOk, OutputOk;
    ReadOrder(s);
  }

  lemma ReadOrder(s: Server)
    requires OrderOk(s) && s.held.None? && s.input != []
    ensures OrderOk(Read(s))
  {
    var s' := Read(s);
    assert forall i {:trigger s'.input[i]} :: 0 <= i < |s'.input| ==> s'.input[i] == s.input[i + 1];
    forall l: nat | Before(s, l)
      ensures Before(s', l)
    {
      assert l < s.input[0].serial;
    }
  }

  /** The line that starts is new: nothing else knows its serial. */
  lemma HeldIsNew(s: Server)
    requires OrderOk(s) && WriterOk(s.tasks, s.queue, s.emitting) && s.held.Some?
    ensures s.held.value.serial !in s.tasks
    ensures forall i :: 0 <= i < |s.output| ==> s.output[i].serial != s.held.value.serial
    ensures forall i :: 0 <= i < |s.queue| ==> s.queue[i].serial != s.held.value.serial
  {
    forall i | 0 <= i < |s.queue|
      ensures s.queue[i].serial != s.held.value.serial
    {
      assert QueuedOk(s.tasks, s.queue, s.emitting, i);
    }
  }

  function Admit(s: Server, registered: bool): Server
    requires s.held.Some?
  {
    var line := s.held.value;
    var s1 := Put(s.(held := None), line.serial, Task(line, registered, Working, false));
    if registered && line.id.Some? then s1.(activeRequestIds := s.activeRequestIds + {line.id.value}) else s1
  }

  lemma AdmitOrder(s: Server, registered: bool)
    requires OrderOk(s) && s.held.Some?
    ensures OrderOk(Admit(s, registered))
  {
    var s' := Admit(s, registered);
    assert forall l :: Before(s, l) ==> Before(s', l);
    assert Before(s', s.held.value.serial);
  }

  lemma AdmitOwners(s: Server, registered: bool)
    requires OwnersOk(s.tasks, s.activeRequestIds, s.held) && s.held.Some? && s.held.value.serial !in s.tasks
    requires registered ==> s.held.value.id.Some?
    ensures OwnersOk(Admit(s, registered).tasks, Admit(s, registered).activeRequestIds, None)
  {
    var s', line := Admit(s, registered), s.held.value;
    forall l, x
      ensures Owns(s'.tasks, l, x) <==> Owns(s.tasks, l, x) || (l == line.serial && registered && line.id == Some(x))
    {
    }
    forall x | x in s'.activeRequestIds
      ensures exists l :: Owns(s'.tasks, l, x)
    {
      if x in s.activeRequestIds {
        var l :| Owns(s.tasks, l, x);
        assert Owns(s'.tasks, l, x);
      } else {
        assert Owns(s'.tasks, line.serial, x);
      }
    }
  }

  lemma AdmitWriter(s: Server, registered: bool)
    requires WriterOk(s.tasks, s.queue, s.emitting) && s.held.Some? && s.held.value.serial !in s.tasks
    ensures WriterOk(Admit(s, registered).tasks, s.queue, s.emitting)
  {
    forall i | 0 <= i < |s.queue|
      ensures QueuedOk(Admit(s, registered).tasks, s.queue, s.emitting, i)
    {
      assert QueuedOk(s.tasks, s.queue, s.emitting, i);
    }
  }

  lemma AdmitKeeps(maxInFlight: nat, s: Server, registered: bool)
    requires ServerOk(maxInFlight, s) && s.held.Some? && |s.tasks| < maxInFlight
    requires registered ==> s.held.value.id.Some?
    ensures ServerOk(maxInFlight, Admit(s, registered))
    ensures s.held.value.serial in Admit(s, registered).tasks
    ensures Admit(s, registered).tasks[s.held.value.serial].phase == Working
  {
    hide OrderOk, OwnersOk, WriterOk;
    var s' := Admit(s, registered);
    HeldIsNew(s);
    AdmitOrder(s, registered);
    AdmitOwners(s, registered);
    AdmitWriter(s, registered);
    assert s'.tasks.Keys == s.tasks.Keys + {s.held.value.serial};
    assert |s'.tasks| == |s'.tasks.Keys| == |s.tasks.Keys| + 1;
  }

  /** Changing phases leaves ownership and the number of tasks alone. */
  lemma RetaskedKeeps(s: Server, s': Server)
    requires OwnersOk(s.tasks, s.activeRequestIds, s.held)
    requires s'.tasks.Keys == s.tasks.Keys
    requires forall l :: l in s.tasks ==> s'.tasks[l].line == s.tasks[l].line && s'.tasks[l].registered == s.tasks[l].registered
    ensures OwnersOk(s'.tasks, s.activeRequestIds, s.held)
    ensures |s'.tasks| == |s.tasks|
  {
    assert |s'.tasks| == |s'.tasks.Keys| == |s.tasks.Keys|;
    assert forall l, x :: Owns(s.tasks, l, x) <==> Owns(s'.tasks, l, x);
    forall x | x in s.activeRequestIds
      ensures exists l :: Owns(s'.tasks, l, x)
    {
      var l :| Owns(s.tasks, l, x);
      assert Owns(s'.tasks, l, x);
    }
  }

  lemma EnqueueWriter(s: Server, serial: nat, body: Body)
    requires WriterOk(s.tasks, s.queue, s.emitting) && serial in s.tasks && s.tasks[serial].phase == Working
    ensures var s' := Enqueue(s, serial, body); WriterOk(s'.tasks, s'.queue, s'.emitting)
  {
    var s' := Enqueue(s, serial, body);
    forall i | 0 <= i < |s'.queue|
      ensures QueuedOk(s'.tasks, s'.queue, s'.emitting, i)
      ensures i < |s.queue| ==> s'.queue[i].serial != serial
    {
      if i < |s.queue| {
        assert QueuedOk(s.tasks, s.queue, s.emitting, i) && s'.queue[i] == s.queue[i];
      }
    }
  }

  lemma EnqueueKeeps(maxInFlight: nat, s: Server, serial: nat, body: Body)
    requires ServerOk(maxInFlight, s) && serial in s.tasks && s.tasks[serial].phase == Working
    ensures ServerOk(maxInFlight, Enqueue(s, serial, body))
  {
    hide OrderOk, OwnersOk, WriterOk;
    var s' := Enqueue(s, serial, body);
    EnqueueWriter(s, serial, body);
    RetaskedKeeps(s, s');
    OrderSurvives(s, s');
  }

  /** The duplicate check inside the task never fires: while the loop waits for a slot the
      active set can only shrink. */
  lemma StartIsNotDuplicate(maxInFlight: nat, s: Server)
    requires ServerOk(maxInFlight, s) && Enabled(maxInFlight, s, StartStep) && !MustStop(s)
    ensures var line := s.held.value;
      Start(s) == if line.refusal.Some? then Enqueue(Admit(s, false), line.serial, Response(Failure(line.refusal.value)))
                  else Admit(s, line.id.Some?)
    ensures !Start(s).correlationViolation
  {
  }

  lemma StartKeeps(maxInFlight: nat, s: Server)
    requires ServerOk(maxInFlight, s) && Enabled(maxInFlight, s, StartStep)
    ensures ServerOk(maxInFlight, Start(s))
  {
    if MustStop(s) {
      hide OrderOk, WriterOk, OutputOk;
      OrderSurvives(s, Start(s));
    } else {
      hide Start, HandleLine, ServerOk, Admit, Enqueue;
      var line := s.held.value;
      StartIsNotDuplicate(maxInFlight, s);
      AdmitKeeps(maxInFlight, s, line.id.Some?);
      AdmitKeeps(maxInFlight, s, false);
      EnqueueKeeps(maxInFlight, Admit(s, false), line.serial, Response(Failure(if line.refusal.Some? then line.refusal.value else OtherFailure)));
    }
  }

  lemma EndHeadWriter(s: Server)
    requires WriterOk(s.tasks, s.queue, s.emitting) && s.queue != []
    ensures WriterOk(EndHead(s).tasks, s.queue[1..], false)
    ensures s.queue[0].serial in s.tasks
  {
    var s' := EndHead(s);
    assert QueuedOk(s.tasks, s.queue, s.emitting, 0);
    forall i | 0 <= i < |s'.queue|
      ensures QueuedOk(s'.tasks, s'.queue, false, i)
    {
      assert QueuedOk(s.tasks, s.queue, s.emitting, i + 1);
    }
  }

  lemma EndHeadKeeps(maxInFlight: nat, s: Server)
    requires ServerOk(maxInFlight, s) && s.queue != []
    ensures ServerOk(maxInFlight, EndHead(s)) && ServerOk(maxInFlight, Fatal(s))
  {
    hide OrderOk, OwnersOk, WriterOk;
    EndHeadWriter(s);
    RetaskedKeeps(s, EndHead(s));
    OrderSurvives(s, EndHead(s));
    OrderSurvives(s, Fatal(s));
  }

  lemma EmittedOrder(s: Server)
    requires OrderOk(s) && s.queue != [] && s.usable && s.queue[0].serial in s.tasks
    ensures OrderOk(BeginOutput(s, true))
  {
    var s' := BeginOutput(s, true);
    assert forall l :: Before(s, l) ==> Before(s', l);
  }

  lemma EmittedWriter(s: Server)
    requires WriterOk(s.tasks, s.queue, s.emitting) && s.queue != [] && s.usable && !s.emitting
    ensures WriterOk(BeginOutput(s, true).tasks, s.queue, true)
    ensures s.queue[0].serial in s.tasks && !s.tasks[s.queue[0].serial].done
  {
    assert QueuedOk(s.tasks, s.queue, s.emitting, 0);
    forall i | 0 <= i < |s.queue|
      ensures QueuedOk(BeginOutput(s, true).tasks, s.queue, true, i)
    {
      assert QueuedOk(s.tasks, s.queue, s.emitting, i) && QueuedOk(s.tasks, s.queue, s.emitting, 0);
    }
  }

  lemma BeginOutputKeeps(maxInFlight: nat, s: Server, fits: bool)
    requires ServerOk(maxInFlight, s) && Enabled(maxInFlight, s, BeginOutputStep(fits))
    ensures ServerOk(maxInFlight, BeginOutput(s, fits))
  {
    hide OrderOk, OwnersOk, WriterOk;
    if !s.usable || !fits {
      EndHeadKeeps(maxInFlight, s);
    } else {
      EmittedWriter(s);
      RetaskedKeeps(s, BeginOutput(s, fits));
      EmittedOrder(s);
    }
  }

  lemma ResumedWriter(s: Server)
    requires WriterOk(s.tasks, s.queue, s.emitting) && s.queue != [] && !Terminal(s.queue[0].body)
    ensures WriterOk(EndOutput(s, true).tasks, s.queue[1..], false)
    ensures s.queue[0].serial in s.tasks
  {
    var s' := EndOutput(s, true);
    assert QueuedOk(s.tasks, s.queue, s.emitting, 0);
    forall i | 0 <= i < |s'.queue|
      ensures QueuedOk(s'.tasks, s'.queue, false, i)
    {
      assert QueuedOk(s.tasks, s.queue, s.emitting, i + 1);
    }
  }

  lemma EndOutputKeeps(maxInFlight: nat, s: Server, ok: bool)
    requires ServerOk(maxInFlight, s) && Enabled(maxInFlight, s, EndOutputStep(ok))
    ensures ServerOk(maxInFlight, EndOutput(s, ok))
  {
    hide OrderOk, OwnersOk, WriterOk;
    if !ok || Terminal(s.queue[0].body) {
      EndHeadKeeps(maxInFlight, s);
    } else {
      ResumedWriter(s);
      RetaskedKeeps(s, EndOutput(s, ok));
      OrderSurvives(s, EndOutput(s, ok));
    }
  }

  lemma FinishOwners(s: Server, serial: nat)
    requires OwnersOk(s.tasks, s.activeRequestIds, s.held) && serial in s.tasks
    ensures OwnersOk(Finish(s, serial).tasks, Finish(s, serial).activeRequestIds, s.held)
  {
    var s' := Finish(s, serial);
    assert forall l, x :: Owns(s'.tasks, l, x) <==> Owns(s.tasks, l, x) && l != serial;
    forall x | x in s'.activeRequestIds
      ensures exists l :: Owns(s'.tasks, l, x)
    {
      var l :| Owns(s.tasks, l, x);
      assert Owns(s'.tasks, l, x);
    }
    forall l, x | Owns(s'.tasks, l, x)
      ensures x in s'.activeRequestIds
    {
      assert Owns(s.tasks, l, x);
      assert s.tasks[serial].registered ==> Owns(s.tasks, serial, s.tasks[serial].line.id.value);
    }
  }

  lemma FinishWriter(s: Server, serial: nat)
    requires WriterOk(s.tasks, s.queue, s.emitting) && serial in s.tasks && s.tasks[serial].phase == Ended
    ensures WriterOk(s.tasks - {serial}, s.queue, s.emitting)
  {
    forall i | 0 <= i < |s.queue|
      ensures QueuedOk(s.tasks - {serial}, s.queue, s.emitting, i)
    {
      assert QueuedOk(s.tasks, s.queue, s.emitting, i);
    }
  }

  lemma FinishKeeps(maxInFlight: nat, s: Server, serial: nat)
    requires ServerOk(maxInFlight, s) && Enabled(maxInFlight, s, FinishStep(serial))
    ensures ServerOk(maxInFlight, Finish(s, serial))
  {
    hide OrderOk, OwnersOk, WriterOk;
    var s' := Finish(s, serial);
    assert s'.tasks.Keys == s.tasks.Keys - {serial};
    assert |s'.tasks| == |s'.tasks.Keys|;
    assert |s.tasks| == |s.tasks.Keys|;
    FinishOwners(s, serial);
    FinishWriter(s, serial);
    OrderSurvives(s, s');
  }

  lemma ReceiveKeeps(maxInFlight: nat, s: Server, line: InputLine)
    requires ServerOk(maxInFlight, s) && s.received <= line.serial
    ensures ServerOk(maxInFlight, s.(input := s.input + [line], received := line.serial + 1))
  {
    hide OwnersOk, WriterOk, OutputOk;
    var s' := s.(input := s.input + [line], received := line.serial + 1);
    assert forall l :: Before(s, l) ==> Before(s', l);
  }

  lemma StopReadingKeeps(maxInFlight: nat, s: Server)
    requires ServerOk(maxInFlight, s)
    ensures ServerOk(maxInFlight, s.(reading := false))
  {
    hide OrderOk, OwnersOk, WriterOk, OutputOk;
    OrderSurvives(s, s.(reading := false));
  }

  /** Every step of the server keeps every clause of the invariant. */
  lemma NextKeeps(maxInFlight: nat, s: Server, step: Step)
    requires ServerOk(maxInFlight, s) && Enabled(maxInFlight, s, step)
    ensures ServerOk(maxInFlight, Next(maxInFlight, s, step))
  {
    hide ServerOk, Read, Start, Enqueue, BeginOutput, EndOutput, Finish;
    match step
    case ReceiveStep(line) => ReceiveKeeps(maxInFlight, s, line);
    case ReadStep => ReadKeeps(maxInFlight, s);
    case StartStep => StartKeeps(maxInFlight, s);
    case EmitStep(serial, body) => EnqueueKeeps(maxInFlight, s, serial, body);
    case BeginOutputStep(fits) => BeginOutputKeeps(maxInFlight, s, fits);
    case EndOutputStep(ok) => EndOutputKeeps(maxInFlight, s, ok);
    case FinishStep(serial) => FinishKeeps(maxInFlight, s, serial);
    case StopReadingStep => StopReadingKeeps(maxInFlight, s);
  }

  /** The state after a run, if every step of it was enabled when it was taken. */
  function Run(maxInFlight: nat, s: Server, steps: seq<Step>): Option<Server>
    decreases |steps|
  {
    if steps == [] then Some(s)
    else if !Enabled(maxInFlight, s, steps[0]) then None
    else Run(maxInFlight, Next(maxInFlight, s, steps[0]), steps[1..])
  }

  lemma {:induction false} RunKeeps(maxInFlight: nat, s: Server, steps: seq<Step>)
    requires ServerOk(maxInFlight, s)
    ensures Run(maxInFlight, s, steps).Some? ==> ServerOk(maxInFlight, Run(maxInFlight, s, steps).value)
    decreases |steps|
  {
    hide ServerOk, Next, Enabled;
    if steps != [] && Enabled(maxInFlight, s, steps[0]) {
      NextKeeps(maxInFlight, s, steps[0]);
      RunKeeps(maxInFlight, Next(maxInFlight, s, steps[0]), steps[1..]);
    }
  }

  // ----- what the server promises

  /** Over every run: the task bound; one live owner for each active id and no owner
      without its id being active; and nothing after a line's terminal frame. */
  lemma RoutesAreDisciplined(maxInFlight: nat, steps: seq<Step>, s: Server)
    requires Run(maxInFlight, IDLE, steps) == Some(s)
    ensures |s.tasks| <= maxInFlight
    ensures forall l, m, x :: Owns(s.tasks, l, x) && Owns(s.tasks, m, x) ==> l == m
    ensures forall x :: x in s.activeRequestIds <==> exists l :: Owns(s.tasks, l, x)
    ensures forall i, j :: 0 <= i < j < |s.output| && Terminal(s.output[i].body) ==> s.output[j].serial != s.output[i].serial
  {
    hide Run, OrderOk, WriterOk;
    IdleOk(maxInFlight);
    RunKeeps(maxInFlight, IDLE, steps);
  }

  /** Whatever a step adds to the output carries the id of the line it answers, and that
      line has not been answered before. */
  lemma FramesAnswerTheirLine(maxInFlight: nat, s: Server, step: Step)
    requires ServerOk(maxInFlight, s) && Enabled(maxInFlight, s, step)
    ensures var s' := Next(maxInFlight, s, step);
      || s'.output == s.output
      || (exists f :: s'.output == s.output + [f] && f.serial in s.tasks && s.tasks[f.serial].line.serial == f.serial
           && f.id == s.tasks[f.serial].line.id && !s.tasks[f.serial].done)
  {
    hide OrderOk, OutputOk;
    if step.BeginOutputStep? && s.usable && step.fits {
      assert QueuedOk(s.tasks, s.queue, s.emitting, 0);
      assert BeginOutput(s, true).output == s.output + [s.queue[0]];
    }
  }

  lemma StoppedStep(maxInFlight: nat, s: Server, step: Step)
    requires !s.reading && s.held.None? && Enabled(maxInFlight, s, step)
    ensures var s' := Next(maxInFlight, s, step);
      !s'.reading && s'.held.None? && s'.tasks.Keys <= s.tasks.Keys
  {
  }

  /** Admission never resumes: once reading has stopped and nothing is held, no task starts
      in any run. */
  lemma {:induction false} StoppedForGood(maxInFlight: nat, s: Server, steps: seq<Step>, s': Server)
    requires !s.reading && s.held.None? && Run(maxInFlight, s, steps) == Some(s')
    ensures !s'.reading && s'.held.None? && s'.tasks.Keys <= s.tasks.Keys
    decreases |steps|
  {
    hide Next, Enabled;
    if steps == [] {
    } else {
      StoppedStep(maxInFlight, s, steps[0]);
      StoppedForGood(maxInFlight, Next(maxInFlight, s, steps[0]), steps[1..], s');
    }
  }

  /** Reading a line that repeats an active id: no frame is added for it, and the owner's
      task, its place in the writer's chain and the writer itself stay as they were. */
  lemma DuplicateRead(maxInFlight: nat, s: Server)
    requires ServerOk(maxInFlight, s) && Enabled(maxInFlight, s, ReadStep) && !MustStop(s)
    requires var line := s.input[0]; !line.blank && line.id.Some? && line.id.value in s.activeRequestIds
    ensures var s' := Next(maxInFlight, s, ReadStep);
      && s'.tasks == s.tasks && s'.queue == s.queue && s'.output == s.output
      && s'.usable == s.usable && s'.emitting == s.emitting && s'.activeRequestIds == s.activeRequestIds
      && !s'.reading && s'.held.None?
    ensures exists l :: Owns(s.tasks, l, s.input[0].id.value)
  {
    hide OrderOk, WriterOk, OutputOk;
  }

  /** A line that repeats an active id stops admission for good: its owner goes on as it
      was, no frame is added for the line, and in no run from there does a task start. */
  lemma DuplicateStopsAdmission(maxInFlight: nat, s: Server, steps: seq<Step>, end: Server)
    requires ServerOk(maxInFlight, s) && Enabled(maxInFlight, s, ReadStep) && !MustStop(s)
    requires var line := s.input[0]; !line.blank && line.id.Some? && line.id.value in s.activeRequestIds
    requires Run(maxInFlight, Next(maxInFlight, s, ReadStep), steps) == Some(end)
    ensures var s' := Next(maxInFlight, s, ReadStep);
      && s'.tasks == s.tasks && s'.queue == s.queue && s'.output == s.output
      && s'.usable == s.usable && s'.emitting == s.emitting && s'.activeRequestIds == s.activeRequestIds
    ensures exists l :: Owns(s.tasks, l, s.input[0].id.value)
    ensures end.tasks.Keys <= s.tasks.Keys && !end.reading && end.held.None?
  {
    hide ServerOk, Next, Run, Owns;
    DuplicateRead(maxInFlight, s);
    StoppedForGood(maxInFlight, Next(maxInFlight, s, ReadStep), steps, end);
  }

  lemma FatalStep(maxInFlight: nat, s: Server, step: Step)
    requires ServerOk(maxInFlight, s) && !s.usable && Enabled(maxInFlight, s, step)
    ensures !Next(maxInFlight, s, step).usable && Next(maxInFlight, s, step).output == s.output
  {
    hide OrderOk, OwnersOk, WriterOk, OutputOk;
  }

  /** After a fatal write the output never grows again, in any run. */
  lemma {:induction false} FatalIsAbsorbing(maxInFlight: nat, s: Server, steps: seq<Step>, s': Server)
    requires ServerOk(maxInFlight, s) && !s.usable && Run(maxInFlight, s, steps) == Some(s')
    ensures !s'.usable && s'.output == s.output
    decreases |steps|
  {
    hide ServerOk, Next, Enabled;
    if steps == [] {
    } else {
      FatalStep(maxInFlight, s, steps[0]);
      NextKeeps(maxInFlight, s, steps[0]);
      FatalIsAbsorbing(maxInFlight, Next(maxInFlight, s, steps[0]), steps[1..], s');
    }
  }

  lemma UnusableStep(maxInFlight: nat, s: Server, step: Step)
    requires !s.usable && Enabled(maxInFlight, s, step)
    ensures !Next(maxInFlight, s, step).usable && Next(maxInFlight, s, step).tasks.Keys <= s.tasks.Keys
  {
  }

  lemma {:induction false} UnusableForGood(maxInFlight: nat, s: Server, steps: seq<Step>, s': Server)
    requires !s.usable && Run(maxInFlight, s, steps) == Some(s')
    ensures s'.tasks.Keys <= s.tasks.Keys
    decreases |steps|
  {
    hide Next, Enabled;
    if steps == [] {
    } else {
      UnusableStep(maxInFlight, s, steps[0]);
      UnusableForGood(maxInFlight, Next(maxInFlight, s, steps[0]), steps[1..], s');
    }
  }

  lemma FatalNow(maxInFlight: nat, s: Server, step: Step)
    requires Enabled(maxInFlight, s, step) && s.usable && (step == BeginOutputStep(false) || step == EndOutputStep(false))
    ensures var s' := Next(maxInFlight, s, step); !s'.usable && s'.output == s.output && s'.tasks.Keys <= s.tasks.Keys
  {
  }

  /** A frame that cannot be written, because it does not fit or its write fails, is the end:
      in no run from there is anything more written, or a line taken up. */
  lemma FailedWriteIsTheEnd(maxInFlight: nat, s: Server, step: Step, steps: seq<Step>, end: Server)
    requires ServerOk(maxInFlight, s) && Enabled(maxInFlight, s, step) && s.usable
    requires step == BeginOutputStep(false) || step == EndOutputStep(false)
    requires Run(maxInFlight, Next(maxInFlight, s, step), steps) == Some(end)
    ensures end.output == s.output && end.tasks.Keys <= s.tasks.Keys
  {
    hide ServerOk, Next, Run;
    FatalNow(maxInFlight, s, step);
    NextKeeps(maxInFlight, s, step);
    FatalIsAbsorbing(maxInFlight, Next(maxInFlight, s, step), steps, end);
    UnusableForGood(maxInFlight, Next(maxInFlight, s, step), steps, end);
  }

  ghost predicate NothingBlank(s: Server) {
    && (s.held.Some? ==> !s.held.value.blank)
    && (forall l :: l in s.tasks ==> !s.tasks[l].line.blank)
  }

  lemma BlankStep(maxInFlight: nat, s: Server, step: Step)
    requires NothingBlank(s) && Enabled(maxInFlight, s, step)
    ensures NothingBlank(Next(maxInFlight, s, step))
  {
    hide NothingBlank, Read, Start, BeginOutput, EndOutput, Finish, Enqueue;
    match step
    case ReceiveStep(line) => BlankSame(s, Next(maxInFlight, s, step));
    case ReadStep => BlankRead(s);
    case StartStep => BlankStart(s);
    case EmitStep(serial, body) => BlankEmit(s, serial, body);
    case BeginOutputStep(fits) => BlankOutput(s, fits);
    case EndOutputStep(ok) => BlankOutput(s, ok);
    case FinishStep(serial) => BlankFinish(s, serial);
    case StopReadingStep => BlankSame(s, Next(maxInFlight, s, step));
  }

  lemma BlankSame(s: Server, s': Server)
    requires NothingBlank(s) && s'.held == s.held && s'.tasks == s.tasks
    ensures NothingBlank(s')
  {
  }

  lemma BlankRead(s: Server)
    requires NothingBlank(s) && s.input != []
    ensures NothingBlank(Read(s))
  {
  }

  lemma BlankEmit(s: Server, serial: nat, body: Body)
    requires NothingBlank(s) && serial in s.tasks
    ensures NothingBlank(Enqueue(s, serial, body))
  {
  }

  lemma BlankOutput(s: Server, ok: bool)
    requires NothingBlank(s) && s.queue != []
    ensures NothingBlank(BeginOutput(s, ok)) && NothingBlank(EndOutput(s, ok))
  {
  }

  lemma BlankFinish(s: Server, serial: nat)
    requires NothingBlank(s) && serial in s.tasks
    ensures NothingBlank(Finish(s, serial))
  {
  }

  lemma BlankStart(s: Server)
    requires NothingBlank(s) && s.held.Some?
    ensures NothingBlank(Start(s))
  {
  }

  /** Blank lines are taken for nothing: no run makes a task of one. */
  lemma {:induction false} BlankLinesAreSkipped(maxInFlight: nat, s: Server, steps: seq<Step>, s': Server)
    requires NothingBlank(s) && Run(maxInFlight, s, steps) == Some(s')
    ensures NothingBlank(s')
    decreases |steps|
  {
    hide Next, Enabled, NothingBlank;
    if steps == [] {
    } else {
      BlankStep(maxInFlight, s, steps[0]);
      BlankLinesAreSkipped(maxInFlight, Next(maxInFlight, s, steps[0]), steps[1..], s');
    }
  }

  /** A line that is refused is answered once, under its id, with the very code it is refused
      with, and its id is not taken. */
  lemma RefusalIsAnswered(maxInFlight: nat, s: Server)
    requires ServerOk(maxInFlight, s) && Enabled(maxInFlight, s, StartStep) && !MustStop(s) && s.held.value.refusal.Some?
    ensures var line, s' := s.held.value, Next(maxInFlight, s, StartStep);
      && s'.queue == s.queue + [Frame(line.id, line.serial, Response(Failure(line.refusal.value)))]
      && s'.activeRequestIds == s.activeRequestIds && !s'.tasks[line.serial].registered
      && forall body :: !Enabled(maxInFlight, s', EmitStep(line.serial, body))
  {
    hide OrderOk, WriterOk, OutputOk;
  }
}
