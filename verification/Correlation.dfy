/**
 The transport and the servers it spawns, composed: each child generation has its own
 stdin, server and stdout, an old child may keep running after its kill, and its frames
 are read but dropped. The claim is end to end: a frame that settles a route was produced
 by the server task for that route's own line, in the same child generation.
*/
module Correlation {
  import opened Custody
  import opened Routes
  import opened TransportInvariant
  import opened Wire
  import opened WriteQueue
  import Client = Transport
  import Server = StdioServer

  /** `cursors[g]` is how much of the g-th child's output the client has read. */
  datatype System = System(client: Client.State, peers: seq<Server.Server>, cursors: seq<nat>)

  const START := System(Client.INITIAL, [], [])

  datatype Step =
    // any transport step that reads no frame; if it hands a line to stdin, the backend
    // may refuse it or take it for a stream
    | ClientStep(cstep: Client.Step, refusal: Option<FailureCode>, streaming: bool)
    | ServerStep(child: nat, sstep: Server.Step)
    | DeliverStep(child: nat, accepted: bool)

  predicate Starts(s: Client.State, step: Client.Step) {
    && step.BeginWriteStep? && Client.Enabled(s, step)
    && Client.MayStart(s, Chain(s.writes, step.retired)[0])
  }

  function LineOf(a: Admission, refusal: Option<FailureCode>, streaming: bool): Server.InputLine {
    Server.InputLine(a.serial, false, Some(a.id), refusal, streaming)
  }

  function FrameStep(f: Server.Frame, accepted: bool): Client.Step
    requires f.id.Some?
  {
    match f.body
    case Response(reply) => Client.ResponseStep(f.id.value, reply, f.serial)
    case Event(t) => Client.EventStep(f.id.value, t, accepted, f.serial)
  }

  predicate Enabled(max: nat, sys: System, step: Step) {
    match step
    case ClientStep(cstep, _, _) => !IsFrame(cstep) && Client.Enabled(sys.client, cstep)
    case ServerStep(g, sstep) => g < |sys.peers| && !sstep.ReceiveStep? && Server.Enabled(max, sys.peers[g], sstep)
    case DeliverStep(g, accepted) =>
      && g < |sys.peers| && g < |sys.cursors| && sys.cursors[g] < |sys.peers[g].output|
      && !Client.MicrotaskDue(sys.client)
  }

  /** What is asked of the callers, from the exact guard to the easiest to keep. */
  datatype Guard = NoHit | Prudence | Freshness

  predicate Obeys(guard: Guard, s: Client.State, step: Step) {
    step.ClientStep? ==>
      match guard
      case NoHit => Harmless(s, step.cstep)
      case Prudence => Prudent(s, step.cstep)
      case Freshness => IsFresh(s, step.cstep)
  }

  function Grown(peers: seq<Server.Server>, cursors: seq<nat>, n: nat): (seq<Server.Server>, seq<nat>)
    decreases n - |peers|
  {
    if n <= |peers| then (peers, cursors) else Grown(peers + [Server.IDLE], cursors + [0], n)
  }

  function ReceivedBy(peers: seq<Server.Server>, g: nat, line: Server.InputLine): seq<Server.Server>
    requires g < |peers|
  {
    var p := peers[g];
    peers[g := p.(input := p.input + [line], received := line.serial + 1)]
  }

  function Next(cfg: Client.Config, max: nat, sys: System, step: Step): System
    requires Enabled(max, sys, step)
  {
    match step
    case ClientStep(cstep, refusal, streaming) =>
      var client := Client.Next(cfg, sys.client, cstep);
      if Starts(sys.client, cstep) && Chain(sys.client.writes, cstep.retired)[0].child < |sys.peers| then
        var a := Chain(sys.client.writes, cstep.retired)[0];
        System(client, ReceivedBy(sys.peers, a.child, LineOf(a, refusal, streaming)), sys.cursors)
      else
        var (peers, cursors) := Grown(sys.peers, sys.cursors, client.spawned);
        System(client, peers, cursors)
    case ServerStep(g, sstep) =>
      sys.(peers := sys.peers[g := Server.Next(max, sys.peers[g], sstep)])
    case DeliverStep(g, accepted) =>
      var f := sys.peers[g].output[sys.cursors[g]];
      var sys1 := sys.(cursors := sys.cursors[g := sys.cursors[g] + 1]);
      if sys.client.child != Some(g) then sys1
      else if f.id.None? then sys1.(client := Client.Terminate(sys.client))
      else sys1.(client := Client.Next(cfg, sys.client, FrameStep(f, accepted)))
  }

  // ----- the invariant

  /** The client holds `id` for exactly this serial. */
  predicate HeldFor(s: Client.State, id: Option<RequestId>, serial: nat) {
    id.Some? && HolderOf(s, id.value) == Some(serial)
  }

  /** Wherever a line or an unread frame of the current child is, its id is still held
      for it. */
  ghost predicate Traces(s: Client.State, p: Server.Server, cursor: nat) {
    && cursor <= |p.output|
    && (forall i {:trigger p.input[i]} :: 0 <= i < |p.input| ==> HeldFor(s, p.input[i].id, p.input[i].serial))
    && (p.held.Some? ==> HeldFor(s, p.held.value.id, p.held.value.serial))
    && (forall l :: l in p.tasks && !p.tasks[l].done ==> HeldFor(s, p.tasks[l].line.id, l))
    && (forall i {:trigger p.output[i]} :: cursor <= i < |p.output| ==> HeldFor(s, p.output[i].id, p.output[i].serial))
  }

  /** The current child's queued lines are newer than everything it has received. */
  ghost predicate QueueAhead(s: Client.State, p: Server.Server) {
    && p.received <= s.serials
    && (forall a :: Queueing(s, a) ==> p.received <= a.serial)
  }

  ghost predicate SystemOk(cfg: Client.Config, max: nat, sys: System, prudent: bool) {
    && StateOk(cfg, sys.client) && Tidy(sys.client, prudent) && Matched(sys.client)
    && |sys.peers| == |sys.cursors| == sys.client.spawned
    && (forall g :: 0 <= g < |sys.peers| ==> Server.ServerOk(max, sys.peers[g]))
    && (forall g :: 0 <= g < |sys.peers| ==> sys.cursors[g] <= |sys.peers[g].output|)
    && (sys.client.child.Some? ==>
          && sys.client.child.value < |sys.peers|
          && Traces(sys.client, sys.peers[sys.client.child.value], sys.cursors[sys.client.child.value])
          && QueueAhead(sys.client, sys.peers[sys.client.child.value]))
  }

  lemma StartOk(cfg: Client.Config, max: nat, prudent: bool)
    requires Client.ValidConfig(cfg)
    ensures SystemOk(cfg, max, START, prudent)
  {
    hide StateOk, Client.INITIAL;
    InitialOk(cfg);
    InitialTidy(prudent);
  }

  lemma InitialTidy(prudent: bool)
    ensures Tidy(Client.INITIAL, prudent) && Matched(Client.INITIAL) && Client.INITIAL.spawned == 0 && Client.INITIAL.child.None?
  {
  }

  /** Traces are carried over by any client step that keeps what is held. */
  lemma TracesCarry(s: Client.State, s': Client.State, p: Server.Server, cursor: nat)
    requires Traces(s, p, cursor)
    requires forall x :: HolderOf(s, x).Some? ==> HolderOf(s', x) == HolderOf(s, x)
    ensures Traces(s', p, cursor)
  {
    hide HolderOf;
  }

  lemma IdleTraces(s: Client.State)
    ensures Traces(s, Server.IDLE, 0) && QueueAhead(s, Server.IDLE)
  {
  }

  lemma GrownByOne(peers: seq<Server.Server>, cursors: seq<nat>, n: nat)
    requires |peers| == |cursors| && n <= |peers| + 1
    ensures Grown(peers, cursors, n)
         == if n <= |peers| then (peers, cursors) else (peers + [Server.IDLE], cursors + [0])
  {
    if n == |peers| + 1 {
      assert Grown(peers + [Server.IDLE], cursors + [0], n) == (peers + [Server.IDLE], cursors + [0]);
    }
  }

  // ----- the server's own steps keep what is traced

  lemma ReadTraces(s: Client.State, p: Server.Server, cursor: nat)
    requires Traces(s, p, cursor) && p.input != []
    ensures Traces(s, Server.Read(p), cursor)
  {
    hide HolderOf;
    var p' := Server.Read(p);
    assert forall i {:trigger p'.input[i]} :: 0 <= i < |p'.input| ==> p'.input[i] == p.input[i + 1];
  }

  lemma StartTraces(s: Client.State, p: Server.Server, cursor: nat)
    requires Traces(s, p, cursor) && p.held.Some?
    ensures Traces(s, Server.Start(p), cursor)
  {
    hide HolderOf;
  }

  lemma EnqueueTraces(s: Client.State, p: Server.Server, cursor: nat, l: nat, body: Server.Body)
    requires Traces(s, p, cursor) && l in p.tasks
    ensures Traces(s, Server.Enqueue(p, l, body), cursor)
  {
    hide HolderOf;
  }

  lemma BeginOutputTraces(s: Client.State, p: Server.Server, cursor: nat, fits: bool)
    requires Traces(s, p, cursor) && p.queue != [] && !p.emitting
    requires Server.WriterOk(p.tasks, p.queue, p.emitting)
    ensures Traces(s, Server.BeginOutput(p, fits), cursor)
  {
    assert Server.QueuedOk(p.tasks, p.queue, p.emitting, 0);
    hide HolderOf;
  }

  lemma EndOutputTraces(s: Client.State, p: Server.Server, cursor: nat, ok: bool)
    requires Traces(s, p, cursor) && p.queue != []
    ensures Traces(s, Server.EndOutput(p, ok), cursor)
  {
    hide HolderOf;
  }

  lemma ServerTraces(max: nat, s: Client.State, p: Server.Server, cursor: nat, step: Server.Step)
    requires Traces(s, p, cursor) && Server.ServerOk(max, p)
    requires Server.Enabled(max, p, step) && !step.ReceiveStep?
    ensures Traces(s, Server.Next(max, p, step), cursor)
    ensures Server.Next(max, p, step).received == p.received
    ensures |p.output| <= |Server.Next(max, p, step).output|
  {
    hide HolderOf, Server.OrderOk, Server.OwnersOk, Server.WriterOk, Server.OutputOk, Traces;
    ServerFrame(max, p, step);
    match step
    case ReadStep => ReadTraces(s, p, cursor);
    case StartStep => StartTraces(s, p, cursor);
    case EmitStep(l, body) => EnqueueTraces(s, p, cursor, l, body);
    case BeginOutputStep(fits) => BeginOutputTraces(s, p, cursor, fits);
    case EndOutputStep(ok) => EndOutputTraces(s, p, cursor, ok);
    case FinishStep(l) => FinishTraces(s, p, cursor, l);
    case StopReadingStep => StopTraces(s, p, cursor);
  }

  lemma ServerFrame(max: nat, p: Server.Server, step: Server.Step)
    requires Server.Enabled(max, p, step) && !step.ReceiveStep?
    ensures Server.Next(max, p, step).received == p.received
    ensures |p.output| <= |Server.Next(max, p, step).output|
  {
  }

  lemma FinishTraces(s: Client.State, p: Server.Server, cursor: nat, l: nat)
    requires Traces(s, p, cursor) && l in p.tasks
    ensures Traces(s, Server.Finish(p, l), cursor)
  {
    hide HolderOf;
  }

  lemma StopTraces(s: Client.State, p: Server.Server, cursor: nat)
    requires Traces(s, p, cursor)
    ensures Traces(s, p.(reading := false), cursor)
  {
    hide HolderOf;
  }

  /** Once a terminal frame is read, nothing of the current child refers to its id. */
  lemma ConsumedTraces(max: nat, s: Client.State, s': Client.State, p: Server.Server, cursor: nat)
    requires Traces(s, p, cursor) && Server.ServerOk(max, p) && cursor < |p.output|
    requires p.output[cursor].id.Some?
    requires var f := p.output[cursor];
      Consumes(s, s', f.id.value, Server.Terminal(f.body)) || Consumes(s, s', f.id.value, false)
    ensures Traces(s', p, cursor + 1)
  {
    var f := p.output[cursor];
    assert HeldFor(s, f.id, f.serial);
    assert Server.Before(p, f.serial);
    hide HolderOf, Server.OwnersOk, Server.WriterOk;
    forall i | cursor + 1 <= i < |p.output|
      ensures HeldFor(s', p.output[i].id, p.output[i].serial)
    {
      assert HeldFor(s, p.output[i].id, p.output[i].serial);
    }
    forall i | 0 <= i < |p.input|
      ensures HeldFor(s', p.input[i].id, p.input[i].serial)
    {
      assert HeldFor(s, p.input[i].id, p.input[i].serial);
    }
    forall l | l in p.tasks && !p.tasks[l].done
      ensures HeldFor(s', p.tasks[l].line.id, l)
    {
      assert HeldFor(s, p.tasks[l].line.id, l);
    }
  }

  // ----- every step of the system

  /** The current child and what the client has read of it. */
  ghost predicate CurrentOk(s: Client.State, peers: seq<Server.Server>, cursors: seq<nat>) {
    && |peers| == |cursors| == s.spawned
    && (s.child.Some? ==>
          && s.child.value < |peers|
          && Traces(s, peers[s.child.value], cursors[s.child.value])
          && QueueAhead(s, peers[s.child.value]))
  }

  ghost predicate PeersOk(max: nat, peers: seq<Server.Server>, cursors: seq<nat>) {
    && |peers| == |cursors|
    && (forall g :: 0 <= g < |peers| ==> Server.ServerOk(max, peers[g]) && cursors[g] <= |peers[g].output|)
  }

  lemma SystemParts(cfg: Client.Config, max: nat, sys: System, prudent: bool)
    ensures SystemOk(cfg, max, sys, prudent) <==>
      (StateOk(cfg, sys.client) && Tidy(sys.client, prudent) && Matched(sys.client)
       && PeersOk(max, sys.peers, sys.cursors) && CurrentOk(sys.client, sys.peers, sys.cursors))
  {
    hide StateOk, Tidy, Matched, Server.ServerOk, Traces, QueueAhead;
  }

  lemma QueueAheadCarries(s: Client.State, s': Client.State, p: Server.Server)
    requires QueueAhead(s, p) && KeepsCustody(s, s') && s'.child == s.child
    ensures QueueAhead(s', p)
  {
    hide HolderOf;
  }

  lemma CustodyCarries(s: Client.State, s': Client.State, p: Server.Server, cursor: nat)
    requires Traces(s, p, cursor) && QueueAhead(s, p) && KeepsCustody(s, s') && s'.child == s.child
    ensures Traces(s', p, cursor) && QueueAhead(s', p)
  {
    QueueAheadCarries(s, s', p);
    hide HolderOf, Traces, QueueAhead;
    TracesCarry(s, s', p, cursor);
  }

  /** A client step that hands nothing to stdin: at most one new child, idle. */
  lemma GrownKeeps(max: nat, s: Client.State, s': Client.State, peers: seq<Server.Server>, cursors: seq<nat>)
    requires PeersOk(max, peers, cursors) && CurrentOk(s, peers, cursors) && KeepsCustody(s, s')
    ensures var (peers', cursors') := Grown(peers, cursors, s'.spawned);
      PeersOk(max, peers', cursors') && CurrentOk(s', peers', cursors')
  {
    hide HolderOf, Server.ServerOk, Traces, QueueAhead;
    GrownByOne(peers, cursors, s'.spawned);
    Server.IdleOk(max);
    IdleTraces(s');
    if s'.child == s.child && s.child.Some? {
      CustodyCarries(s, s', peers[s.child.value], cursors[s.child.value]);
    }
  }

  lemma HandedToStdin(cfg: Client.Config, s: Client.State, step: Client.Step, prudent: bool)
    requires Client.ValidConfig(cfg) && StateOk(cfg, s) && Tidy(s, prudent) && Starts(s, step)
    ensures var a := Chain(s.writes, step.retired)[0];
      && !step.retired && s.child == Some(a.child) && Queueing(s, a)
      && HolderOf(s, a.id) == Some(a.serial) && a.serial < s.serials
      && (forall b :: Queueing(Client.Next(cfg, s, step), b) ==> a.serial < b.serial)
      && Client.Next(cfg, s, step).child == s.child
      && Client.Next(cfg, s, step).spawned == s.spawned
      && Client.Next(cfg, s, step).serials == s.serials
  {
    BeginWriteStarts(cfg, s, step.retired);
    var a := Chain(s.writes, step.retired)[0];
    assert a in s.writes.tail;
    assert Queueing(s, a);
    LaterSerials(s.writes, cfg.writes, s.child, s.spawned, s.serials);
    hide StateOk, HolderOf;
  }

  lemma LaterSerials(w: Writes, limits: WriteLimits, child: Option<nat>, spawned: nat, serials: nat)
    requires WritesOk(w, limits, child, spawned, serials) && w.tail != []
    ensures w.tail[0].serial < serials
    ensures forall b :: b in MarkStarted(w, false).tail && !b.started ==> w.tail[0].serial < b.serial
  {
    var k := |Retired(w)|;
    assert forall i {:trigger w.tail[i]} :: 0 <= i < |w.tail| ==> ActiveWrites(w)[k + i] == w.tail[i];
  }

  lemma ReceivedKeeps(max: nat, s: Client.State, s': Client.State, peers: seq<Server.Server>, cursors: seq<nat>,
                      a: Admission, refusal: Option<FailureCode>, streaming: bool)
    requires PeersOk(max, peers, cursors) && CurrentOk(s, peers, cursors) && KeepsCustody(s, s')
    requires s.child == Some(a.child) && Queueing(s, a) && HolderOf(s, a.id) == Some(a.serial) && a.serial < s.serials
    requires forall b :: Queueing(s', b) ==> a.serial < b.serial
    requires s'.child == s.child && s'.spawned == s.spawned && s'.serials == s.serials
    ensures var peers' := ReceivedBy(peers, a.child, LineOf(a, refusal, streaming));
      PeersOk(max, peers', cursors) && CurrentOk(s', peers', cursors)
  {
    hide HolderOf, Server.ServerOk, Traces;
    var p := peers[a.child];
    var line := LineOf(a, refusal, streaming);
    Server.ReceiveKeeps(max, p, line);
    CustodyCarries(s, s', p, cursors[a.child]);
    LineTraces(s', p, cursors[a.child], line);
  }

  lemma LineTraces(s: Client.State, p: Server.Server, cursor: nat, line: Server.InputLine)
    requires Traces(s, p, cursor) && HeldFor(s, line.id, line.serial)
    ensures Traces(s, p.(input := p.input + [line], received := line.serial + 1), cursor)
  {
    hide HolderOf;
  }

  lemma ClientStepKeeps(cfg: Client.Config, max: nat, sys: System, step: Step, prudent: bool)
    requires Client.ValidConfig(cfg) && SystemOk(cfg, max, sys, prudent) && Enabled(max, sys, step) && step.ClientStep?
    requires Obeys(NoHit, sys.client, step) && (prudent ==> Obeys(Prudence, sys.client, step))
    ensures SystemOk(cfg, max, Next(cfg, max, sys, step), prudent)
  {
    hide StateOk, Tidy, SystemOk, PeersOk, CurrentOk, KeepsCustody, Client.Next, Client.Enabled, HolderOf;
    hide Grown, ReceivedBy, Client.MayStart, Harmless, Prudent;
    var s, s' := sys.client, Client.Next(cfg, sys.client, step.cstep);
    SystemParts(cfg, max, sys, prudent);
    SystemParts(cfg, max, Next(cfg, max, sys, step), prudent);
    NextKeeps(cfg, s, step.cstep);
    NextCustody(cfg, s, step.cstep, prudent);
    SameDeliveries(s, s');
    GrownKeeps(max, s, s', sys.peers, sys.cursors);
    if Starts(s, step.cstep) {
      StartsHead(s, step.cstep);
      var a := Chain(s.writes, step.cstep.retired)[0];
      HandedToStdin(cfg, s, step.cstep, prudent);
      CurrentChild(s, sys.peers, sys.cursors);
      ReceivedKeeps(max, s, s', sys.peers, sys.cursors, a, step.refusal, step.streaming);
    }
  }

  lemma StartsHead(s: Client.State, step: Client.Step)
    requires Starts(s, step)
    ensures Chain(s.writes, step.retired) != []
  {
  }

  lemma CurrentChild(s: Client.State, peers: seq<Server.Server>, cursors: seq<nat>)
    requires CurrentOk(s, peers, cursors)
    ensures s.child.Some? ==> s.child.value < |peers|
  {
  }

  lemma SameDeliveries(s: Client.State, s': Client.State)
    requires Matched(s) && KeepsCustody(s, s')
    ensures Matched(s')
  {
  }

  lemma ServerStepKeeps(cfg: Client.Config, max: nat, sys: System, step: Step, prudent: bool)
    requires Client.ValidConfig(cfg) && SystemOk(cfg, max, sys, prudent) && Enabled(max, sys, step) && step.ServerStep?
    ensures SystemOk(cfg, max, Next(cfg, max, sys, step), prudent)
  {
    hide StateOk, Tidy, Traces, Server.Next, Server.Enabled, Server.ServerOk, HolderOf;
    var g, p := step.child, sys.peers[step.child];
    Server.NextKeeps(max, p, step.sstep);
    ServerFrame(max, p, step.sstep);
    if sys.client.child == Some(g) {
      ServerTraces(max, sys.client, p, sys.cursors[g], step.sstep);
    }
  }

  lemma FrameHeld(max: nat, s: Client.State, p: Server.Server, cursor: nat)
    requires Traces(s, p, cursor) && QueueAhead(s, p) && Server.ServerOk(max, p) && cursor < |p.output|
    ensures p.output[cursor].id.Some?
    ensures HolderOf(s, p.output[cursor].id.value) == Some(p.output[cursor].serial)
    ensures forall a :: Queueing(s, a) ==> p.output[cursor].serial < a.serial
  {
    assert HeldFor(s, p.output[cursor].id, p.output[cursor].serial);
    assert Server.Before(p, p.output[cursor].serial);
    hide HolderOf;
  }

  lemma FrameCustody(cfg: Client.Config, s: Client.State, f: Server.Frame, accepted: bool, prudent: bool)
    requires Client.ValidConfig(cfg) && StateOk(cfg, s) && Tidy(s, prudent) && Matched(s) && s.child.Some? && !Client.MicrotaskDue(s)
    requires f.id.Some? && HolderOf(s, f.id.value) == Some(f.serial)
    requires forall a :: Queueing(s, a) ==> f.serial < a.serial
    requires Client.Enabled(s, FrameStep(f, accepted))
    ensures var s' := Client.Next(cfg, s, FrameStep(f, accepted));
      && StateOk(cfg, s') && Tidy(s', prudent) && Matched(s')
      && (Consumes(s, s', f.id.value, Server.Terminal(f.body)) || Consumes(s, s', f.id.value, false) || Down(s, s'))
  {
    hide StateOk, Tidy, Matched, HolderOf, Consumes, Down, Client.HandleResponse, Client.HandleEvent;
    var id, s' := f.id.value, Client.Next(cfg, s, FrameStep(f, accepted));
    NextKeeps(cfg, s, FrameStep(f, accepted));
    match f.body {
      case Response(reply) => ResponseCustody(cfg, s, id, reply, f.serial, prudent);
      case Event(t) => EventCustody(cfg, s, id, t, accepted, f.serial, prudent);
    }
    if Down(s, s') {
      DownKeeps(s, s', prudent);
    } else if Consumes(s, s', id, Server.Terminal(f.body)) {
      ConsumesKeeps(s, s', id, Server.Terminal(f.body), prudent);
    } else {
      ConsumesKeeps(s, s', id, false, prudent);
    }
  }

  lemma DeliverCurrent(max: nat, s: Client.State, s': Client.State, peers: seq<Server.Server>, cursors: seq<nat>)
    requires PeersOk(max, peers, cursors) && CurrentOk(s, peers, cursors) && s.child.Some?
    requires cursors[s.child.value] < |peers[s.child.value].output|
    requires var f := peers[s.child.value].output[cursors[s.child.value]];
      f.id.Some? && (Consumes(s, s', f.id.value, Server.Terminal(f.body)) || Consumes(s, s', f.id.value, false) || Down(s, s'))
    ensures var g := s.child.value;
      CurrentOk(s', peers, cursors[g := cursors[g] + 1])
  {
    hide HolderOf, Server.ServerOk, Traces;
    var g := s.child.value;
    var f := peers[g].output[cursors[g]];
    if Consumes(s, s', f.id.value, Server.Terminal(f.body)) || Consumes(s, s', f.id.value, false) {
      ConsumedTraces(max, s, s', peers[g], cursors[g]);
    }
  }

  lemma DeliverStepKeeps(cfg: Client.Config, max: nat, sys: System, step: Step, prudent: bool)
    requires Client.ValidConfig(cfg) && SystemOk(cfg, max, sys, prudent) && Enabled(max, sys, step) && step.DeliverStep?
    ensures SystemOk(cfg, max, Next(cfg, max, sys, step), prudent)
  {
    hide StateOk, Tidy, Matched, HolderOf, Consumes, Down, Client.Next, Traces, Server.ServerOk;
    var g, s := step.child, sys.client;
    if s.child == Some(g) {
      hide QueueAhead;
      var f := sys.peers[g].output[sys.cursors[g]];
      FrameHeld(max, s, sys.peers[g], sys.cursors[g]);
      FrameCustody(cfg, s, f, step.accepted, prudent);
      DeliverCurrent(max, s, Client.Next(cfg, s, FrameStep(f, step.accepted)), sys.peers, sys.cursors);
    }
  }

  /** Every step of the composed system, whoever takes it, keeps all of this as long as
      no stale line hits a route; and prudence survives as well. */
  lemma SystemNextKeeps(cfg: Client.Config, max: nat, sys: System, step: Step, prudent: bool)
    requires Client.ValidConfig(cfg) && SystemOk(cfg, max, sys, prudent) && Enabled(max, sys, step)
    requires Obeys(NoHit, sys.client, step) && (prudent ==> Obeys(Prudence, sys.client, step))
    ensures SystemOk(cfg, max, Next(cfg, max, sys, step), prudent)
  {
    hide SystemOk, Next, Enabled, Obeys;
    match step
    case ClientStep(_, _, _) => ClientStepKeeps(cfg, max, sys, step, prudent);
    case ServerStep(_, _) => ServerStepKeeps(cfg, max, sys, step, prudent);
    case DeliverStep(_, _) => DeliverStepKeeps(cfg, max, sys, step, prudent);
  }

  // ----- runs

  /** No guard: whatever the code may do. */
  function Run(cfg: Client.Config, max: nat, sys: System, steps: seq<Step>): Option<System>
    decreases |steps|
  {
    if steps == [] then Some(sys)
    else if !Enabled(max, sys, steps[0]) then None
    else Run(cfg, max, Next(cfg, max, sys, steps[0]), steps[1..])
  }

  /** It is a run, and every step of it meets the guard. */
  predicate Observes(cfg: Client.Config, max: nat, guard: Guard, sys: System, steps: seq<Step>)
    decreases |steps|
  {
    steps == []
    || (Enabled(max, sys, steps[0]) && Obeys(guard, sys.client, steps[0])
        && Observes(cfg, max, guard, Next(cfg, max, sys, steps[0]), steps[1..]))
  }

  lemma PrudentStep(cfg: Client.Config, max: nat, sys: System, step: Step)
    requires SystemOk(cfg, max, sys, true) && Enabled(max, sys, step)
    ensures Obeys(NoHit, sys.client, step)
  {
    hide StateOk, Tidy, Client.Enabled, Harmless, Server.ServerOk, Traces, QueueAhead, Matched;
    if step.ClientStep? {
      PrudenceIsHarmless(sys.client, step.cstep);
    }
  }

  /** A run that meets the exact guard keeps the invariant; a run of prudent callers keeps
      prudence too, and so meets the exact guard. */
  lemma {:induction false} RunKeeps(cfg: Client.Config, max: nat, sys: System, steps: seq<Step>, prudent: bool)
    requires Client.ValidConfig(cfg) && SystemOk(cfg, max, sys, prudent)
    requires Observes(cfg, max, if prudent then Prudence else NoHit, sys, steps)
    ensures Run(cfg, max, sys, steps).Some? && SystemOk(cfg, max, Run(cfg, max, sys, steps).value, prudent)
    ensures Observes(cfg, max, NoHit, sys, steps)
    decreases |steps|
  {
    hide SystemOk, Next, Enabled, Obeys;
    if steps == [] {
    } else {
      if prudent {
        PrudentStep(cfg, max, sys, steps[0]);
      }
      SystemNextKeeps(cfg, max, sys, steps[0], prudent);
      RunKeeps(cfg, max, Next(cfg, max, sys, steps[0]), steps[1..], prudent);
    }
  }

  /** The end-to-end claim. Over every interleaving of calls, cancellations, deadlines,
      write completions, server tasks, frame deliveries and child exits, in which no
      drained stale line finds a route of its kind pending under its id: whatever settles
      a route answers the very line that route wrote, to the same child. As a consequence
      no frame of an honest backend is ever taken for an unknown id. */
  lemma FramesReachTheirOwnRoute(cfg: Client.Config, max: nat, steps: seq<Step>)
    requires Client.ValidConfig(cfg) && Observes(cfg, max, NoHit, START, steps)
    ensures var end := Run(cfg, max, START, steps);
      && end.Some?
      && (forall d :: d in end.value.client.deliveries ==>
            d.routeSerial == d.frameSerial && d.routeChild == d.frameChild)
      && !end.value.client.protocolQuarantined
  {
    hide StateOk, Server.ServerOk, Traces, QueueAhead, Next, Enabled, Observes;
    StartOk(cfg, max, false);
    RunKeeps(cfg, max, START, steps, false);
  }

  /** Callers that never reuse an id which a retired child's unstarted line still carries
      never meet a hit, in any run. */
  lemma PrudentRunsNeverHit(cfg: Client.Config, max: nat, steps: seq<Step>)
    requires Client.ValidConfig(cfg) && Observes(cfg, max, Prudence, START, steps)
    ensures Observes(cfg, max, NoHit, START, steps)
  {
    hide SystemOk, Next, Enabled, Observes;
    StartOk(cfg, max, true);
    RunKeeps(cfg, max, START, steps, true);
  }

  /** The child still owes something under `id` for the line with this serial: it has not
      read the line, is working on it, or has answered where the client has not read yet. */
  predicate Owes(p: Server.Server, cursor: nat, id: RequestId, serial: nat) {
    || (exists i :: 0 <= i < |p.input| && p.input[i].id == Some(id) && p.input[i].serial == serial)
    || (p.held.Some? && p.held.value.id == Some(id) && p.held.value.serial == serial)
    || (serial in p.tasks && p.tasks[serial].line.id == Some(id) && !p.tasks[serial].done)
    || (exists i :: cursor <= i < |p.output| && p.output[i].id == Some(id) && p.output[i].serial == serial)
  }

  /** As long as the current child owes a frame, its id is held for that very line and
      cannot be admitted again. */
  lemma OwedIdIsBlocked(cfg: Client.Config, max: nat, steps: seq<Step>, sys: System, id: RequestId, serial: nat)
    requires Client.ValidConfig(cfg) && Observes(cfg, max, NoHit, START, steps)
    requires Run(cfg, max, START, steps) == Some(sys)
    requires sys.client.child.Some? && sys.client.child.value < |sys.peers| == |sys.cursors|
    requires Owes(sys.peers[sys.client.child.value], sys.cursors[sys.client.child.value], id, serial)
    ensures HolderOf(sys.client, id) == Some(serial)
    ensures forall control :: !Client.IsFreeId(sys.client, id, control)
  {
    hide StateOk, Server.ServerOk, Next, Enabled, Observes;
    StartOk(cfg, max, false);
    RunKeeps(cfg, max, START, steps, false);
    HeldIsBlocked(cfg, sys.client, id);
  }

  lemma HeldIsBlocked(cfg: Client.Config, s: Client.State, id: RequestId)
    requires StateOk(cfg, s) && HolderOf(s, id).Some?
    ensures forall control :: !Client.IsFreeId(s, id, control)
  {
    assert IdOk(s.routes, id);
  }
}
