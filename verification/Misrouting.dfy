/**
 The other half of the end-to-end claim: with a hit it fails. For every reachable system,
 the answer that a hit route was owed is delivered to nobody; and there is a run, with a
 server of its own behind each child, in which that answer settles a later call.
*/
module Misrouting {
  import opened Correlation
  import opened Custody
  import opened Routes
  import opened StaleWrites
  import opened Wire
  import opened WriteQueue
  import Client = Transport
  import Server = StdioServer
  import TransportInvariant

  const MAX := 8

  // ----- runs, piece by piece

  ghost predicate Leads(sys: System, steps: seq<Step>, sys': System) {
    Run(CFG, MAX, sys, steps) == Some(sys')
  }

  lemma {:induction false} Then(sys: System, steps: seq<Step>, sys1: System, more: seq<Step>, sys2: System)
    requires Leads(sys, steps, sys1) && Leads(sys1, more, sys2)
    ensures Leads(sys, steps + more, sys2)
    decreases |steps|
  {
    hide Next, Enabled;
    if steps == [] {
      assert steps + more == more;
    } else {
      assert (steps + more)[1..] == steps[1..] + more;
      Then(Next(CFG, MAX, sys, steps[0]), steps[1..], sys1, more, sys2);
    }
  }

  lemma One(sys: System, step: Step, sys': System)
    requires Enabled(MAX, sys, step) && Next(CFG, MAX, sys, step) == sys'
    ensures Leads(sys, [step], sys')
  {
    hide Next, Enabled;
    assert Run(CFG, MAX, sys', []) == Some(sys');
    assert [step][1..] == [];
  }

  function Call(step: Client.Step): Step {
    ClientStep(step, None, false)
  }

  function Children(peers: seq<Server.Server>, n: nat): seq<Server.Server> {
    if n == |peers| + 1 then peers + [Server.IDLE] else peers
  }

  function Positions(cursors: seq<nat>, n: nat): seq<nat> {
    if n == |cursors| + 1 then cursors + [0] else cursors
  }

  /** A transport step that hands nothing to stdin. */
  lemma Calls(s: Client.State, step: Client.Step, s': Client.State, peers: seq<Server.Server>, cursors: seq<nat>)
    requires Goes(s, step, s') && !IsFrame(step) && !Starts(s, step)
    requires |peers| == |cursors| && s'.spawned <= |peers| + 1
    ensures Leads(System(s, peers, cursors), [Call(step)],
                  System(s', Children(peers, s'.spawned), Positions(cursors, s'.spawned)))
  {
    hide Client.Next, Client.Enabled, Run, Leads, Starts;
    GrownByOne(peers, cursors, s'.spawned);
    One(System(s, peers, cursors), Call(step), System(s', Children(peers, s'.spawned), Positions(cursors, s'.spawned)));
  }

  function Line(id: RequestId, serial: nat): Server.InputLine {
    Server.InputLine(serial, false, Some(id), None, false)
  }

  function Got(p: Server.Server, id: RequestId, serial: nat): Server.Server {
    p.(input := p.input + [Line(id, serial)], received := serial + 1)
  }

  /** The head of the current child's chain reaches its stdin. */
  lemma Writes(s: Client.State, s': Client.State, peers: seq<Server.Server>, cursors: seq<nat>)
    requires Goes(s, Client.BeginWriteStep(false), s') && Starts(s, Client.BeginWriteStep(false))
    requires s.writes.tail != [] && s.writes.tail[0].child < |peers|
    ensures var a := s.writes.tail[0];
      Leads(System(s, peers, cursors), [Call(Client.BeginWriteStep(false))],
            System(s', peers[a.child := Got(peers[a.child], a.id, a.serial)], cursors))
  {
    hide Client.Next, Client.Enabled, Run, Leads, Starts, Client.MayStart;
    var a := s.writes.tail[0];
    One(System(s, peers, cursors), Call(Client.BeginWriteStep(false)),
        System(s', peers[a.child := Got(peers[a.child], a.id, a.serial)], cursors));
  }

  /** The current child's next frame is read. */
  lemma Reads(s: Client.State, s': Client.State, peers: seq<Server.Server>, cursors: seq<nat>, g: nat)
    requires g < |peers| && g < |cursors| && cursors[g] < |peers[g].output| && s.child == Some(g)
    requires peers[g].output[cursors[g]].id.Some? && !Client.MicrotaskDue(s)
    requires Goes(s, FrameStep(peers[g].output[cursors[g]], true), s')
    ensures Leads(System(s, peers, cursors), [DeliverStep(g, true)], System(s', peers, cursors[g := cursors[g] + 1]))
  {
    hide Client.Next, Client.Enabled, Run, Leads;
    One(System(s, peers, cursors), DeliverStep(g, true), System(s', peers, cursors[g := cursors[g] + 1]));
  }

  // ----- a server at work

  function At(g: nat, steps: seq<Server.Step>): seq<Step> {
    seq(|steps|, i requires 0 <= i < |steps| => ServerStep(g, steps[i]))
  }

  lemma {:induction false} Works(sys: System, g: nat, steps: seq<Server.Step>, p': Server.Server)
    requires g < |sys.peers| && Server.Run(MAX, sys.peers[g], steps) == Some(p')
    requires forall i :: 0 <= i < |steps| ==> !steps[i].ReceiveStep?
    ensures Leads(sys, At(g, steps), sys.(peers := sys.peers[g := p']))
    decreases |steps|
  {
    hide Server.Next, Server.Enabled;
    if steps == [] {
      assert sys.peers[g := p'] == sys.peers;
    } else {
      var p1 := Server.Next(MAX, sys.peers[g], steps[0]);
      var sys1 := sys.(peers := sys.peers[g := p1]);
      Works(sys1, g, steps[1..], p');
      assert sys1.peers[g := p'] == sys.peers[g := p'];
      assert At(g, steps)[1..] == At(g, steps[1..]);
    }
  }

  function Answering(serial: nat): seq<Server.Step> {
    [Server.ReadStep, Server.StartStep, Server.EmitStep(serial, Server.Response(OK)),
     Server.BeginOutputStep(true), Server.EndOutputStep(true), Server.FinishStep(serial)]
  }

  /** A server that has answered a few lines and is at rest. */
  function Rested(received: nat, output: seq<Server.Frame>): Server.Server {
    Server.IDLE.(received := received, output := output)
  }

  function Answer(id: RequestId, serial: nat): Server.Frame {
    Server.Frame(Some(id), serial, Server.Response(OK))
  }

  lemma ServerStepOnce(p: Server.Server, steps: seq<Server.Step>, p': Server.Server)
    requires steps != [] && Server.Enabled(MAX, p, steps[0]) && Server.Next(MAX, p, steps[0]) == p'
    ensures Server.Run(MAX, p, steps) == Server.Run(MAX, p', steps[1..])
  {
    hide Server.Next, Server.Enabled;
  }

  function Busy(p: Server.Server, id: RequestId, serial: nat, phase: Server.Phase, done: bool): Server.Server {
    p.(received := serial + 1, activeRequestIds := {id},
       tasks := map[serial := Server.Task(Line(id, serial), true, phase, done)])
  }

  lemma TakesLine(received: nat, output: seq<Server.Frame>, id: RequestId, serial: nat, rest: seq<Server.Step>)
    ensures Server.Run(MAX, Got(Rested(received, output), id, serial), [Server.ReadStep, Server.StartStep] + rest)
         == Server.Run(MAX, Busy(Rested(received, output), id, serial, Server.Working, false), rest)
  {
    var p := Got(Rested(received, output), id, serial);
    var p1 := p.(input := [], held := Some(Line(id, serial)));
    assert p.input[1..] == [];
    var steps := [Server.ReadStep, Server.StartStep] + rest;
    ServerStepOnce(p, steps, p1);
    assert steps[1..] == [Server.StartStep] + rest && steps[1..][1..] == rest;
    ServerStepOnce(p1, steps[1..], Busy(Rested(received, output), id, serial, Server.Working, false));
  }

  lemma WritesFrame(received: nat, output: seq<Server.Frame>, id: RequestId, serial: nat)
    ensures Server.Run(MAX, Busy(Rested(received, output), id, serial, Server.Working, false), Answering(serial)[2..])
         == Some(Rested(serial + 1, output + [Answer(id, serial)]))
  {
    var r := Rested(received, output);
    var steps := Answering(serial)[2..];
    var f := Answer(id, serial);
    var p1 := Busy(r, id, serial, Server.Writing, false).(queue := [f]);
    ServerStepOnce(Busy(r, id, serial, Server.Working, false), steps, p1);
    var p2 := Busy(r, id, serial, Server.Writing, true).(queue := [f], emitting := true, output := output + [f]);
    ServerStepOnce(p1, steps[1..], p2);
    var p3 := Busy(r, id, serial, Server.Ended, true).(output := output + [f]);
    assert [f][1..] == [];
    ServerStepOnce(p2, steps[1..][1..], p3);
    ServerStepOnce(p3, steps[1..][1..][1..], Rested(serial + 1, output + [f]));
  }

  /** The server's own steps turn a received line into its answer. */
  lemma Answers(s: Client.State, peers: seq<Server.Server>, cursors: seq<nat>, g: nat, received: nat,
                output: seq<Server.Frame>, id: RequestId, serial: nat)
    requires g < |peers| && peers[g] == Got(Rested(received, output), id, serial)
    ensures Leads(System(s, peers, cursors), At(g, Answering(serial)),
                  System(s, peers[g := Rested(serial + 1, output + [Answer(id, serial)])], cursors))
  {
    hide Server.Run, Leads;
    var steps := Answering(serial);
    TakesLine(received, output, id, serial, steps[2..]);
    WritesFrame(received, output, id, serial);
    assert steps == [Server.ReadStep, Server.StartStep] + steps[2..];
    Works(System(s, peers, cursors), g, steps, Rested(serial + 1, output + [Answer(id, serial)]));
  }

  // ----- the run

  const R0 := Rested(1, [Answer(Control(1), 0)])
  const R1 := Rested(3, [Answer(Control(2), 2)])
  const R2 := Rested(4, [Answer(Control(2), 2), Answer(X, 3)])
  const S18 := S17.(deliveries := S17.deliveries + {Client.Delivery(4, 1, 3, 1)}, routes := DropPending(S17.routes, X))

  const HIT := Call(Client.BeginWriteStep(true))

  function Piece(k: nat): seq<Step> {
    match k
    // the first child's hello is answered while its stdin callback is still due
    case 0 => [Call(Client.RequestStep(X, LINE))]
    case 1 => [Call(Client.BeginWriteStep(false))]
    case 2 => At(0, Answering(0))
    case 3 => [DeliverStep(0, true)]
    case 4 => [Call(Client.ContinueStep)]
    // the caller's line is queued behind it, and the child exits
    case 5 => [Call(Client.ResumeStep(X))]
    case 6 => [Call(Client.TerminateStep)]
    // the call is made again under the same id, on a second child
    case 7 => [Call(Client.RequestStep(X, LINE))]
    case 8 => [Call(Client.BeginWriteStep(false))]
    case 9 => [Call(Client.EndWriteStep(false, true))]
    case 10 => At(1, Answering(2))
    case 11 => [DeliverStep(1, true)]
    case 12 => [Call(Client.ContinueStep)]
    // and this time its line is written
    case 13 => [Call(Client.ResumeStep(X))]
    case 14 => [Call(Client.BeginWriteStep(false))]
    // the old hello's callback comes, and the stale line fails
    case 15 => [Call(Client.EndWriteStep(true, true))]
    case 16 => [HIT]
    // the id is free again: a third call is admitted under it
    case 17 => [Call(Client.RequestStep(X, LINE))]
    case 18 => [Call(Client.ResumeStep(X))]
    // the second child answers the second call
    case 19 => At(1, Answering(3))
    case 20 => [DeliverStep(1, true)]
    case _ => []
  }

  function Steps(k: nat): seq<Step> {
    if k == 0 then [] else Steps(k - 1) + Piece(k - 1)
  }

  /** Where the run is before its k-th piece. */
  function Sys(k: nat): System {
    match k
    case 0 => START
    case 1 => System(S1, [Server.IDLE], [0])
    case 2 => System(S2, [Got(Server.IDLE, Control(1), 0)], [0])
    case 3 => System(S2, [R0], [0])
    case 4 => System(S3, [R0], [1])
    case 5 => System(S4, [R0], [1])
    case 6 => System(S5, [R0], [1])
    case 7 => System(S6, [R0], [1])
    case 8 => System(S7, [R0, Server.IDLE], [1, 0])
    case 9 => System(S8, [R0, Got(Server.IDLE, Control(2), 2)], [1, 0])
    case 10 => System(S9, [R0, Got(Server.IDLE, Control(2), 2)], [1, 0])
    case 11 => System(S9, [R0, R1], [1, 0])
    case 12 => System(S10, [R0, R1], [1, 1])
    case 13 => System(S11, [R0, R1], [1, 1])
    case 14 => System(S12, [R0, R1], [1, 1])
    case 15 => System(S13, [R0, Got(R1, X, 3)], [1, 1])
    case 16 => System(S14, [R0, Got(R1, X, 3)], [1, 1])
    case 17 => System(S15, [R0, Got(R1, X, 3)], [1, 1])
    case 18 => System(S16, [R0, Got(R1, X, 3)], [1, 1])
    case 19 => System(S17, [R0, Got(R1, X, 3)], [1, 1])
    case 20 => System(S17, [R0, R2], [1, 1])
    case 21 => System(S18, [R0, R2], [1, 2])
    case _ => START
  }

  lemma Piece0()
    ensures Leads(Sys(0), Piece(0), Sys(1))
  {
    hide Leads, Goes;
    Step1();
    Calls(Client.INITIAL, Client.RequestStep(X, LINE), S1, [], []);
    assert [] + [Server.IDLE] == [Server.IDLE] && [] + [0] == [0];
  }

  lemma Piece1()
    ensures Leads(Sys(1), Piece(1), Sys(2))
  {
    hide Leads, Goes;
    Step2();
    Writes(S1, S2, [Server.IDLE], [0]);
    assert [Server.IDLE][0 := Got(Server.IDLE, Control(1), 0)] == [Got(Server.IDLE, Control(1), 0)];
  }

  lemma Piece2()
    ensures Leads(Sys(2), Piece(2), Sys(3))
  {
    hide Leads, Server.Run, Answering, At;
    Answers(S2, [Got(Server.IDLE, Control(1), 0)], [0], 0, 0, [], Control(1), 0);
    assert [Got(Server.IDLE, Control(1), 0)][0 := R0] == [R0];
    assert [] + [Answer(Control(1), 0)] == [Answer(Control(1), 0)];
  }

  lemma Piece3()
    ensures Leads(Sys(3), Piece(3), Sys(4))
  {
    hide Leads, Goes;
    Step3();
    Reads(S2, S3, [R0], [0], 0);
    assert [0][0 := 0 + 1] == [1];
  }

  lemma Piece4()
    ensures Leads(Sys(4), Piece(4), Sys(5))
  {
    hide Leads, Goes;
    Step4();
    Calls(S3, Client.ContinueStep, S4, [R0], [1]);
  }

  lemma Piece5()
    ensures Leads(Sys(5), Piece(5), Sys(6))
  {
    hide Leads, Goes;
    Step5();
    Calls(S4, Client.ResumeStep(X), S5, [R0], [1]);
  }

  lemma Piece6()
    ensures Leads(Sys(6), Piece(6), Sys(7))
  {
    hide Leads, Goes;
    Step6();
    Calls(S5, Client.TerminateStep, S6, [R0], [1]);
  }

  lemma Piece7()
    ensures Leads(Sys(7), Piece(7), Sys(8))
  {
    hide Leads, Goes;
    Step7();
    Calls(S6, Client.RequestStep(X, LINE), S7, [R0], [1]);
    assert [R0] + [Server.IDLE] == [R0, Server.IDLE] && [1] + [0] == [1, 0];
  }

  lemma Piece8()
    ensures Leads(Sys(8), Piece(8), Sys(9))
  {
    hide Leads, Goes;
    Step8();
    Writes(S7, S8, [R0, Server.IDLE], [1, 0]);
    assert [R0, Server.IDLE][1 := Got(Server.IDLE, Control(2), 2)] == [R0, Got(Server.IDLE, Control(2), 2)];
  }

  lemma Piece9()
    ensures Leads(Sys(9), Piece(9), Sys(10))
  {
    hide Leads, Goes;
    Step9();
    Calls(S8, Client.EndWriteStep(false, true), S9, [R0, Got(Server.IDLE, Control(2), 2)], [1, 0]);
  }

  lemma Piece10()
    ensures Leads(Sys(10), Piece(10), Sys(11))
  {
    hide Leads, Server.Run, Answering, At;
    Answers(S9, [R0, Got(Server.IDLE, Control(2), 2)], [1, 0], 1, 0, [], Control(2), 2);
    assert [R0, Got(Server.IDLE, Control(2), 2)][1 := R1] == [R0, R1];
    assert [] + [Answer(Control(2), 2)] == [Answer(Control(2), 2)];
  }

  lemma Piece11()
    ensures Leads(Sys(11), Piece(11), Sys(12))
  {
    hide Leads, Goes;
    Step10();
    Reads(S9, S10, [R0, R1], [1, 0], 1);
    assert [1, 0][1 := 0 + 1] == [1, 1];
  }

  lemma Piece12()
    ensures Leads(Sys(12), Piece(12), Sys(13))
  {
    hide Leads, Goes;
    Step11();
    Calls(S10, Client.ContinueStep, S11, [R0, R1], [1, 1]);
  }

  lemma Piece13()
    ensures Leads(Sys(13), Piece(13), Sys(14))
  {
    hide Leads, Goes;
    Step12();
    Calls(S11, Client.ResumeStep(X), S12, [R0, R1], [1, 1]);
  }

  lemma Piece14()
    ensures Leads(Sys(14), Piece(14), Sys(15))
  {
    hide Leads, Goes;
    Step13();
    Writes(S12, S13, [R0, R1], [1, 1]);
    assert [R0, R1][1 := Got(R1, X, 3)] == [R0, Got(R1, X, 3)];
  }

  lemma Piece15()
    ensures Leads(Sys(15), Piece(15), Sys(16))
  {
    hide Leads, Goes;
    Step14();
    Calls(S13, Client.EndWriteStep(true, true), S14, [R0, Got(R1, X, 3)], [1, 1]);
  }

  lemma Piece16()
    ensures Leads(Sys(16), Piece(16), Sys(17))
  {
    hide Leads, Goes;
    Step15();
    Calls(S14, Client.BeginWriteStep(true), S15, [R0, Got(R1, X, 3)], [1, 1]);
  }

  lemma Piece17()
    ensures Leads(Sys(17), Piece(17), Sys(18))
  {
    hide Leads, Goes;
    Step16();
    Calls(S15, Client.RequestStep(X, LINE), S16, [R0, Got(R1, X, 3)], [1, 1]);
  }

  lemma Piece18()
    ensures Leads(Sys(18), Piece(18), Sys(19))
  {
    hide Leads, Goes;
    Step17();
    Calls(S16, Client.ResumeStep(X), S17, [R0, Got(R1, X, 3)], [1, 1]);
  }

  lemma Piece19()
    ensures Leads(Sys(19), Piece(19), Sys(20))
  {
    hide Leads, Server.Run, Answering, At;
    Answers(S17, [R0, Got(R1, X, 3)], [1, 1], 1, 3, [Answer(Control(2), 2)], X, 3);
    assert [R0, Got(R1, X, 3)][1 := R2] == [R0, R2];
    assert [Answer(Control(2), 2)] + [Answer(X, 3)] == [Answer(Control(2), 2), Answer(X, 3)];
  }

  lemma Piece20()
    ensures Leads(Sys(20), Piece(20), Sys(21))
  {
    hide Leads, Goes;
    LastAnswer();
    Reads(S17, S18, [R0, R2], [1, 1], 1);
    assert [1, 1][1 := 1 + 1] == [1, 2];
  }

  lemma LastAnswer()
    ensures Goes(S17, Client.ResponseStep(X, OK, 3), S18)
  {
  }

  lemma EveryPiece(k: nat)
    requires k < 21
    ensures Leads(Sys(k), Piece(k), Sys(k + 1))
  {
    hide Leads, Sys, Piece;
    match k
    case 0 => Piece0();
    case 1 => Piece1();
    case 2 => Piece2();
    case 3 => Piece3();
    case 4 => Piece4();
    case 5 => Piece5();
    case 6 => Piece6();
    case 7 => Piece7();
    case 8 => Piece8();
    case 9 => Piece9();
    case 10 => Piece10();
    case 11 => Piece11();
    case 12 => Piece12();
    case 13 => Piece13();
    case 14 => Piece14();
    case 15 => Piece15();
    case 16 => Piece16();
    case 17 => Piece17();
    case 18 => Piece18();
    case 19 => Piece19();
    case 20 => Piece20();
  }

  lemma {:induction false} Path(k: nat)
    requires k <= 21
    ensures Leads(START, Steps(k), Sys(k))
  {
    hide Leads, Piece;
    if k == 0 {
      One0();
    } else {
      Path(k - 1);
      EveryPiece(k - 1);
      Then(START, Steps(k - 1), Sys(k - 1), Piece(k - 1), Sys(k));
    }
  }

  lemma One0()
    ensures Leads(START, [], START)
  {
  }

  predicate Drains(step: Step) {
    step.ClientStep? && step.cstep == Client.BeginWriteStep(true)
  }

  lemma {:induction false} WithoutDrains(sys: System, steps: seq<Step>)
    requires Run(CFG, MAX, sys, steps).Some? && forall i :: 0 <= i < |steps| ==> !Drains(steps[i])
    ensures Observes(CFG, MAX, NoHit, sys, steps)
    decreases |steps|
  {
    hide Next, Enabled;
    if steps == [] {
    } else {
      assert !Drains(steps[0]);
      WithoutDrains(Next(CFG, MAX, sys, steps[0]), steps[1..]);
    }
  }

  lemma {:induction false} FirstDrain(k: nat)
    requires k <= 16
    ensures forall i :: 0 <= i < |Steps(k)| ==> !Drains(Steps(k)[i])
  {
    hide Piece, Drains;
    if k == 0 {
    } else {
      FirstDrain(k - 1);
      NoDrainIn(k - 1);
    }
  }

  lemma NoDrainIn(k: nat)
    requires k < 16
    ensures forall i :: 0 <= i < |Piece(k)| ==> !Drains(Piece(k)[i])
  {
    hide Answering;
  }

  /** A run of the composed system in which the hit is the first thing to go wrong: up to
      it the exact guard is met, and the drained line finds the second call pending. At
      the end the call that wrote line 4 has been given the answer to line 3, which an
      earlier call under the same id wrote; line 4 has not even reached stdin. */
  lemma ReusedIdIsMisrouted()
    ensures Observes(CFG, MAX, NoHit, START, Steps(16)) && Run(CFG, MAX, START, Steps(16)) == Some(Sys(16))
    ensures Retired(Sys(16).client.writes) == [Admission(X, Unary, 1, 1, 0, false)]
    ensures Piece(16) == [HIT] && !Obeys(NoHit, Sys(16).client, HIT)
    ensures var end := Run(CFG, MAX, START, Steps(21));
      && end.Some?
      && Client.Delivery(4, 1, 3, 1) in end.value.client.deliveries
      && Admission(X, Unary, 4, 1, 1, false) in end.value.client.writes.tail
  {
    hide Run, Observes, Steps;
    Path(16);
    FirstDrain(16);
    WithoutDrains(START, Steps(16));
    Path(21);
    assert S18.writes.tail[1] == Admission(X, Unary, 4, 1, 1, false);
  }

  // ----- what a hit does in any system

  /** A frame for an id that nobody holds is delivered to nobody. */
  lemma UnknownFrame(cfg: Client.Config, s: Client.State, f: Server.Frame, accepted: bool)
    requires Client.ValidConfig(cfg) && s.child.Some? && s.quarantinedRequestIds == {} && f.id.Some?
    requires Client.Enabled(s, FrameStep(f, accepted)) && HolderOf(s, f.id.value).None?
    ensures var s' := Client.Next(cfg, s, FrameStep(f, accepted));
      s'.deliveries == s.deliveries && (s'.protocolQuarantined || s'.child.None?)
  {
    hide FailAll, Retire;
  }

  lemma HitStep(cfg: Client.Config, max: nat, sys: System)
    requires Client.ValidConfig(cfg) && SystemOk(cfg, max, sys, false)
    requires Enabled(max, sys, HIT) && !Obeys(NoHit, sys.client, HIT)
    ensures sys.client.child.Some? && sys.client.child.value < |sys.peers| == |sys.cursors|
    ensures var sys1, id := Next(cfg, max, sys, HIT), Retired(sys.client.writes)[0].id;
      && sys1.peers == sys.peers && sys1.cursors == sys.cursors
      && HolderOf(sys.client, id).Some? && HolderOf(sys1.client, id).None? && !IsWaiting(sys1.client.routes, id)
      && sys1.client.deliveries == sys.client.deliveries
      && sys1.client.child == sys.client.child && sys1.client.quarantinedRequestIds == {}
  {
    var s := sys.client;
    SystemParts(cfg, max, sys, false);
    NotQuarantined(s, false);
    RetiredNeverStarts(cfg, s);
    hide TransportInvariant.StateOk, SystemOk, Tidy, HolderOf, Client.BeginWrite, Client.MayStart, PeersOk, Matched, Traces, QueueAhead;
    HitLeavesUnheld(cfg, s);
    GrownByOne(sys.peers, sys.cursors, s.spawned);
  }

  lemma AnswerLost(cfg: Client.Config, max: nat, sys: System, accepted: bool)
    requires Client.ValidConfig(cfg) && sys.client.child.Some? && sys.client.quarantinedRequestIds == {}
    requires Enabled(max, sys, DeliverStep(sys.client.child.value, accepted))
    requires var g := sys.client.child.value; var id := sys.peers[g].output[sys.cursors[g]].id;
      id.Some? && HolderOf(sys.client, id.value).None?
    ensures var end := Next(cfg, max, sys, DeliverStep(sys.client.child.value, accepted)).client;
      end.deliveries == sys.client.deliveries && (end.protocolQuarantined || end.child.None?)
  {
    hide HolderOf, Client.Next;
    var g := sys.client.child.value;
    UnknownFrame(cfg, sys.client, sys.peers[g].output[sys.cursors[g]], accepted);
  }

  /** In any system the invariant allows: let a drained line hit a route whose answer is
      the current child's next unread frame. The hit gives the route's id up, so that
      frame is delivered to nobody: it is taken for an unknown id, and the transport is
      quarantined or the child taken down. Without a hit, `SystemNextKeeps` rules all of
      this out. */
  lemma HitLosesTheAnswer(cfg: Client.Config, max: nat, sys: System, accepted: bool)
    requires Client.ValidConfig(cfg) && SystemOk(cfg, max, sys, false)
    requires Enabled(max, sys, HIT) && !Obeys(NoHit, sys.client, HIT)
    requires sys.client.child.Some? ==>
      var g := sys.client.child.value;
      sys.cursors[g] < |sys.peers[g].output| && sys.peers[g].output[sys.cursors[g]].id == Some(Retired(sys.client.writes)[0].id)
    ensures sys.client.child.Some?
    ensures var sys1, read := Next(cfg, max, sys, HIT), DeliverStep(sys.client.child.value, accepted);
      && HolderOf(sys.client, Retired(sys.client.writes)[0].id).Some?
      && HolderOf(sys1.client, Retired(sys.client.writes)[0].id).None?
      && (Enabled(max, sys1, read) ==>
            var end := Next(cfg, max, sys1, read).client;
            end.deliveries == sys.client.deliveries && (end.protocolQuarantined || end.child.None?))
  {
    hide SystemOk, HolderOf, Client.BeginWrite, Client.Next, Next, Client.Enabled;
    HitStep(cfg, max, sys);
    if Enabled(max, Next(cfg, max, sys, HIT), DeliverStep(sys.client.child.value, accepted)) {
      AnswerLost(cfg, max, Next(cfg, max, sys, HIT), accepted);
    }
  }
}
