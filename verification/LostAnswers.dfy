/**
 How far a hit reaches: until the id is opened again, whatever the child still says under
 it is delivered to nobody, however late it comes and whatever else happens meanwhile.
*/
module LostAnswers {
  import opened Correlation
  import opened Custody
  import opened Ledger
  import opened Liveness
  import opened Misrouting
  import opened Routes
  import opened StaleWrites
  import opened TransportInvariant
  import opened Wire
  import opened WriteQueue
  import Client = Transport
  import Server = StdioServer

  /** Nothing of the client answers for the id. */
  predicate Absent(s: Client.State, x: RequestId) {
    x.Caller? && !IsLive(s.routes, x) && x !in s.tombstones
  }

  lemma TerminateAbsent(s: Client.State, x: RequestId)
    requires Absent(s, x)
    ensures Absent(Client.Terminate(s), x)
  {
    hide ViewOf, SlotHeld, Retire;
  }

  lemma RecycleAbsent(s: Client.State, x: RequestId)
    requires Absent(s, x)
    ensures Absent(Client.RecycleQuarantined(s), x) && Absent(Client.MaybeRecycle(s), x)
  {
    hide Client.Terminate;
    TerminateAbsent(s.(protocolQuarantined := false), x);
  }

  lemma ClearAbsent(cfg: Client.Config, s: Client.State, id: RequestId, tombstone: bool, after: Client.Handshake, x: RequestId)
    requires Absent(s, x) && IsPending(s.routes, id)
    ensures Absent(Client.ClearPending(cfg, s, id, tombstone, after), x)
  {
    var t := Client.Tombstone(if id in s.routes.pendingResponses then Unary else Stream, PendingOf(s.routes, id).serial);
    var s1 := Detach(s, id, after);
    assert Absent(s1, x) && Absent(s1.(tombstones := s1.tombstones[id := t]), x);
    hide Client.Terminate, Client.MaybeRecycle, DropPending, Absent;
    TerminateAbsent(s1, x);
    RecycleAbsent(if tombstone then Client.AddTombstone(cfg, s1, id, t) else s1, x);
  }

  lemma SubmitAbsent(cfg: Client.Config, s: Client.State, id: RequestId, kind: Kind, line: Line, serial: nat, x: RequestId)
    requires Absent(s, x) && IsPending(s.routes, id)
    ensures Absent(Client.Submit(cfg, s, id, kind, line, serial), x)
  {
    hide Client.ClearPending, Client.CanWrite, Charge;
    ClearAbsent(cfg, s, id, false, Client.Broken(false), x);
  }

  lemma LaunchAbsent(s: Client.State, id: RequestId, slot: bool, x: RequestId)
    requires Absent(s, x) && IsWaiting(s.routes, id) && s.child.Some?
    ensures Absent(Launched(s, id, slot), x) && IsPending(Launched(s, id, slot).routes, id)
  {
  }

  lemma IssueAbsent(cfg: Client.Config, s: Client.State, id: RequestId, slot: bool, x: RequestId)
    requires Absent(s, x) && IsWaiting(s.routes, id) && s.child.Some?
    ensures Absent(Client.Issue(cfg, s, id, slot), x)
  {
    LaunchAbsent(s, id, slot, x);
    hide Client.Submit, Launch, Absent;
    var kind := if id in s.routes.waitingRequests then Unary else Stream;
    SubmitAbsent(cfg, Launched(s, id, slot), id, kind, WaitingOf(s.routes, id).line, s.serials, x);
  }

  lemma RejectAbsent(s: Client.State, id: RequestId, granted: bool, x: RequestId)
    requires Absent(s, x) && IsWaiting(s.routes, id)
    ensures Absent(Client.RejectWaiting(s, id, granted), x)
  {
  }

  lemma AcquireAbsent(s: Client.State, id: RequestId, x: RequestId)
    requires Absent(s, x) && IsWaiting(s.routes, id)
    ensures Absent(s.(routes := AcquireSlot(s.routes, id)), x)
  {
  }

  // ----- the handshake

  lemma ProbeAbsent(cfg: Client.Config, s: Client.State, stage: Client.Stage, x: RequestId)
    requires Absent(s, x)
    ensures Absent(Client.Probe(cfg, s, stage).0, x)
  {
    hide Client.IsFreeId, Client.HasCapacity, Client.Submit;
    var id := Client.ControlId(s);
    var s1 := s.(handshakeGeneration := s.handshakeGeneration + 1);
    if Client.IsFreeId(s1, id, true) && Client.HasCapacity(cfg, s1, true) {
      var child := if s.child.Some? then s.child.value else 0;
      var s2 := s1.(routes := OpenControl(s.routes, id, s.serials, child),
                    serials := s.serials + 1,
                    handshake := Client.Probing(id, stage));
      SubmitAbsent(cfg, s2, id, Unary, Line(if stage == Client.Hello then cfg.helloBytes else cfg.probeBytes, true), s.serials, x);
    }
  }

  lemma EnsureAbsent(cfg: Client.Config, s: Client.State, x: RequestId)
    requires Absent(s, x)
    ensures Absent(Client.EnsureHandshake(cfg, s).0, x)
  {
    assert Absent(Client.Spawn(s), x);
    hide Client.Probe, Client.Spawn, Absent;
    ProbeAbsent(cfg, if s.child.None? then Client.Spawn(s) else s, Client.Hello, x);
  }

  lemma AfterEnsureAbsent(s: Client.State, v: Client.Verdict, id: RequestId, x: RequestId)
    requires Absent(s, x) && IsWaiting(s.routes, id)
    ensures Absent(Client.AfterEnsure(s, v, id), x)
  {
  }

  lemma RequestAbsent(cfg: Client.Config, s: Client.State, id: RequestId, line: Line, x: RequestId)
    requires Absent(s, x) && id != x
    ensures Absent(Client.Request(cfg, s, id, line), x)
  {
    var s1 := s.(routes := Open(s.routes, Unary, id, line));
    assert Absent(s1, x);
    hide Client.IsFreeId, Client.HasCapacity, Client.EnsureHandshake, Client.AfterEnsure, Open, Absent;
    EnsureAbsent(cfg, s1, x);
    var (s2, v) := Client.EnsureHandshake(cfg, s1);
    if IsWaiting(s2.routes, id) {
      AfterEnsureAbsent(s2, v, id, x);
    }
  }

  lemma OpenStreamAbsent(cfg: Client.Config, s: Client.State, id: RequestId, line: Line, x: RequestId)
    requires Absent(s, x) && id != x
    ensures Absent(Client.OpenStream(cfg, s, id, line), x)
  {
    hide Client.IsFreeId, Client.HasCapacity;
  }

  lemma StreamHandshakeAbsent(cfg: Client.Config, s: Client.State, id: RequestId, x: RequestId)
    requires Absent(s, x) && IsWaiting(s.routes, id)
    ensures Absent(Client.StreamHandshake(cfg, s, id), x)
  {
    hide Client.EnsureHandshake, Client.AfterEnsure, Absent;
    EnsureAbsent(cfg, s, x);
    var (s1, v) := Client.EnsureHandshake(cfg, s);
    if IsWaiting(s1.routes, id) {
      AfterEnsureAbsent(s1, v, id, x);
    }
  }

  lemma ReleaseAbsent(s: Client.State, s1: Client.State, ok: bool, x: RequestId)
    requires Absent(s, x) && s1.routes == ReleaseWaiters(s.routes, ok) && s1.tombstones == s.tombstones
    ensures Absent(s1, x)
  {
  }

  lemma SucceedAbsent(s: Client.State, h: Client.HandshakeState, x: RequestId)
    requires Absent(s, x)
    ensures Absent(Client.Succeed(s, h), x)
  {
    hide Client.MaybeRecycle, ReleaseWaiters, Absent;
    var s1 := s.(
      handshakeState := h,
      handshake := Client.NoHandshake,
      routes := ReleaseWaiters(s.routes, true),
      negotiated := if s.child.Some? then s.negotiated + {s.child.value} else s.negotiated);
    ReleaseAbsent(s, s1, true, x);
    RecycleAbsent(s1, x);
  }

  lemma GiveUpAbsent(s: Client.State, x: RequestId)
    requires Absent(s, x)
    ensures Absent(Client.GiveUp(s), x)
  {
    hide Client.MaybeRecycle, ReleaseWaiters, Absent;
    var s1 := s.(handshakeState := Client.Unknown, handshake := Client.NoHandshake, routes := ReleaseWaiters(s.routes, false));
    ReleaseAbsent(s, s1, false, x);
    RecycleAbsent(s1, x);
  }

  lemma BlockAbsent(s: Client.State, x: RequestId)
    requires Absent(s, x)
    ensures Absent(Client.Block(s), x)
  {
    hide Client.MaybeRecycle, Client.Terminate;
    TerminateAbsent(s, x);
    RecycleAbsent(Client.Terminate(s).(handshakeState := Client.Blocked, handshake := Client.NoHandshake), x);
  }

  lemma NextProbeAbsent(cfg: Client.Config, s: Client.State, stage: Client.Stage, x: RequestId)
    requires Absent(s, x)
    ensures Absent(Client.NextProbe(cfg, s, stage), x)
  {
    hide Client.Probe, Client.GiveUp, Absent;
    ProbeAbsent(cfg, s, stage, x);
    GiveUpAbsent(Client.Probe(cfg, s, stage).0, x);
  }

  lemma ContinueAbsent(cfg: Client.Config, s: Client.State, x: RequestId)
    requires Absent(s, x) && Client.MicrotaskDue(s)
    ensures Absent(Client.ContinueHandshake(cfg, s), x)
  {
    hide Client.Succeed, Client.GiveUp, Client.Block, Client.NextProbe, Absent;
    GiveUpAbsent(s, x);
    BlockAbsent(s, x);
    if s.handshake.Answered? {
      SucceedAbsent(s, Client.Ready, x);
      SucceedAbsent(s, Client.SingleFlight, x);
      SucceedAbsent(s, Client.Legacy, x);
      NextProbeAbsent(cfg, s, Client.LegacyVersion, x);
      NextProbeAbsent(cfg, s, Client.LegacyCapabilities(true), x);
      NextProbeAbsent(cfg, s, Client.LegacyCapabilities(false), x);
    }
  }

  // ----- calls, timers, writes and frames

  lemma ResumeAbsent(cfg: Client.Config, s: Client.State, id: RequestId, x: RequestId)
    requires Absent(s, x) && IsWaiting(s.routes, id) && WaitingOf(s.routes, id).phase.Released?
    ensures Absent(Client.Resume(cfg, s, id), x)
  {
    hide Client.Issue, Client.RejectWaiting, Client.CanPromote, AcquireSlot, Absent;
    RejectAbsent(s, id, false, x);
    AcquireAbsent(s, id, x);
    if s.child.Some? {
      IssueAbsent(cfg, s, id, false, x);
    }
  }

  lemma GrantAbsent(cfg: Client.Config, s: Client.State, x: RequestId)
    requires StateOk(cfg, s) && Absent(s, x) && s.routes.slots != []
    ensures Absent(Client.Grant(cfg, s), x)
  {
    assert Absent(s.(routes := SkipSlot(s.routes)), x);
    hide StateOk, ViewOf, Client.Issue, Client.RejectWaiting, Client.CanPromote, Client.CanIssue, SkipSlot, Absent;
    if SlotWanted(s.routes) {
      var id := s.routes.calls[s.routes.slots[0]];
      WantedWaits(cfg, s);
      RejectAbsent(s, id, true, x);
      IssueWanted(cfg, s, id, x);
    }
  }

  lemma IssueWanted(cfg: Client.Config, s: Client.State, id: RequestId, x: RequestId)
    requires Absent(s, x) && IsWaiting(s.routes, id)
    ensures Client.CanIssue(s) ==> Absent(Client.Issue(cfg, s, id, true), x)
  {
    hide Client.Issue, Absent;
    if s.child.Some? {
      IssueAbsent(cfg, s, id, true, x);
    }
  }

  lemma GiveUpOnAbsent(cfg: Client.Config, s: Client.State, id: RequestId, after: Client.Handshake, x: RequestId)
    requires Absent(s, x) && IsPending(s.routes, id)
    ensures var s1 := Client.ClearPending(cfg, s, id, true, after); Absent(s1, x) && Absent(Client.Terminate(s1), x)
  {
    hide Client.ClearPending, Client.Terminate, Absent;
    ClearAbsent(cfg, s, id, true, after, x);
    TerminateAbsent(Client.ClearPending(cfg, s, id, true, after), x);
  }

  lemma CancelAbsent(cfg: Client.Config, s: Client.State, id: RequestId, rejection: bool, x: RequestId)
    requires Absent(s, x)
    ensures Absent(Client.Cancel(cfg, s, id, rejection), x)
  {
    hide Client.ClearPending, Client.Terminate, Client.RejectWaiting, Client.HasStartedWrite, Absent;
    if IsWaiting(s.routes, id) {
      RejectAbsent(s, id, false, x);
    } else if IsPending(s.routes, id) {
      GiveUpOnAbsent(cfg, s, id, Client.Broken(rejection), x);
    }
  }

  lemma DeadlineAbsent(cfg: Client.Config, s: Client.State, id: RequestId, x: RequestId)
    requires Absent(s, x) && IsPending(s.routes, id)
    ensures Absent(Client.Deadline(cfg, s, id), x)
  {
    hide Client.ClearPending, Client.Terminate, Client.HasStartedWrite, Absent;
    GiveUpOnAbsent(cfg, s, id, Client.Broken(false), x);
  }

  lemma WriteRejectedAbsent(cfg: Client.Config, s: Client.State, a: Admission, tombstone: bool, x: RequestId)
    requires Absent(s, x)
    ensures Absent(Client.WriteRejected(cfg, s, a, tombstone), x)
  {
    hide Client.ClearPending, Absent;
    if IsPending(s.routes, a.id) {
      ClearAbsent(cfg, s, a.id, tombstone, Client.Broken(false), x);
    }
  }

  lemma WriteStepAbsent(cfg: Client.Config, s: Client.State, retired: bool, ok: bool, x: RequestId)
    requires Absent(s, x) && Chain(s.writes, retired) != []
    ensures Absent(Client.BeginWrite(cfg, s, retired), x) && Absent(Client.EndWrite(cfg, s, retired, ok), x)
  {
    hide Client.WriteRejected, Release, MarkStarted, Client.MayStart;
    var a := Chain(s.writes, retired)[0];
    var s1 := s.(writes := Release(s.writes, retired));
    WriteRejectedAbsent(cfg, s1, a, true, x);
    WriteRejectedAbsent(cfg, s1, a, false, x);
  }

  lemma QuarantineAbsent(cfg: Client.Config, s: Client.State, id: RequestId, x: RequestId)
    requires Absent(s, x)
    ensures Absent(Client.Quarantine(cfg, s, id), x)
  {
    hide Client.Terminate, Client.MaybeRecycle;
    TerminateAbsent(s, x);
    RecycleAbsent(s.(quarantinedRequestIds := s.quarantinedRequestIds + {id}, protocolQuarantined := true), x);
  }

  lemma ResponseAbsent(cfg: Client.Config, s: Client.State, id: RequestId, reply: Reply, serial: nat, x: RequestId)
    requires Absent(s, x) && s.child.Some?
    ensures Absent(Client.HandleResponse(cfg, s, id, reply, serial), x)
  {
    hide Client.ClearPending, Client.Terminate, Client.Quarantine, Client.Deliver, Absent;
    TerminateAbsent(s, x);
    QuarantineAbsent(cfg, s, id, x);
    UntombedAbsent(s, id, x);
    if IsPending(s.routes, id) {
      var stage := if s.handshake.Probing? then s.handshake.stage else Client.Hello;
      DeliverAbsent(cfg, s, id, serial, Client.Answered(stage, reply), x);
    }
  }

  lemma EventAbsent(cfg: Client.Config, s: Client.State, id: RequestId, t: EventType, accepted: bool, serial: nat, x: RequestId)
    requires Absent(s, x) && s.child.Some?
    ensures Absent(Client.HandleEvent(cfg, s, id, t, accepted, serial), x)
  {
    hide Client.ClearPending, Client.Terminate, Client.Quarantine, Client.Deliver, Absent;
    TerminateAbsent(s, x);
    QuarantineAbsent(cfg, s, id, x);
    UntombedAbsent(s, id, x);
    if IsPending(s.routes, id) {
      DeliverAbsent(cfg, s, id, serial, Client.Broken(false), x);
      ClearAbsent(cfg, s, id, true, Client.Broken(false), x);
    }
  }

  lemma UntombedAbsent(s: Client.State, id: RequestId, x: RequestId)
    requires Absent(s, x)
    ensures Absent(s.(tombstones := s.tombstones - {id}), x)
  {
  }

  lemma DeliverAbsent(cfg: Client.Config, s: Client.State, id: RequestId, serial: nat, after: Client.Handshake, x: RequestId)
    requires Absent(s, x) && IsPending(s.routes, id) && s.child.Some?
    ensures Absent(Client.Deliver(s, id, serial), x)
    ensures IsPending(Client.Deliver(s, id, serial).routes, id)
    ensures Absent(Client.ClearPending(cfg, Client.Deliver(s, id, serial), id, false, after), x)
  {
    hide Client.ClearPending;
    ClearAbsent(cfg, Client.Deliver(s, id, serial), id, false, after, x);
  }

  lemma CloseAbsent(s: Client.State, x: RequestId)
    requires Absent(s, x)
    ensures Absent(Client.Close(s), x)
  {
    hide Client.Terminate;
    TerminateAbsent(s.(closed := true), x);
  }

  // ----- every step that does not open the id

  predicate Opens(step: Client.Step, x: RequestId) {
    (step.RequestStep? || step.OpenStreamStep?) && step.id == x
  }

  lemma NextAbsent(cfg: Client.Config, s: Client.State, step: Client.Step, x: RequestId)
    requires StateOk(cfg, s) && Client.Enabled(s, step) && Absent(s, x) && !Opens(step, x)
    ensures Absent(Client.Next(cfg, s, step), x)
  {
    hide StateOk, Absent, Client.Request, Client.OpenStream, Client.StreamHandshake, Client.Resume, Client.Grant;
    hide Client.ContinueHandshake, Client.Cancel, Client.Close, Client.BeginWrite, Client.EndWrite, Client.Deadline;
    hide Client.HandleResponse, Client.HandleEvent, Client.Terminate, Client.RecycleQuarantined, FinishRetired;
    match step
    case RequestStep(id, line) => RequestAbsent(cfg, s, id, line, x);
    case OpenStreamStep(id, line) => OpenStreamAbsent(cfg, s, id, line, x);
    case StreamHandshakeStep(id) => StreamHandshakeAbsent(cfg, s, id, x);
    case ResumeStep(id) => ResumeAbsent(cfg, s, id, x);
    case GrantStep => GrantAbsent(cfg, s, x);
    case ContinueStep => ContinueAbsent(cfg, s, x);
    case CancelStep(id, rejection) => CancelAbsent(cfg, s, id, rejection, x);
    case CloseStep => CloseAbsent(s, x);
    case BeginWriteStep(retired) => WriteStepAbsent(cfg, s, retired, true, x);
    case FinishRetiredStep => SameAbsent(s, Client.Next(cfg, s, step), x);
    case DeadlineStep(id) => DeadlineAbsent(cfg, s, id, x);
    case EndWriteStep(retired, ok) => WriteStepAbsent(cfg, s, retired, ok, x);
    case ResponseStep(id, reply, serial) => ResponseAbsent(cfg, s, id, reply, serial, x);
    case EventStep(id, t, accepted, serial) => EventAbsent(cfg, s, id, t, accepted, serial, x);
    case TerminateStep => TerminateAbsent(s, x);
    case QuarantineTimerStep => RecycleAbsent(s, x);
  }

  lemma SameAbsent(s: Client.State, s': Client.State, x: RequestId)
    requires Absent(s, x) && s'.routes == s.routes && s'.tombstones == s.tombstones
    ensures Absent(s', x)
  {
  }

  lemma FrameStepAbsent(cfg: Client.Config, s: Client.State, f: Server.Frame, accepted: bool, x: RequestId)
    requires Client.ValidConfig(cfg) && StateOk(cfg, s) && Absent(s, x)
    requires s.child.Some? && !Client.MicrotaskDue(s) && f.id.Some?
    ensures Client.Enabled(s, FrameStep(f, accepted))
    ensures var s' := Client.Next(cfg, s, FrameStep(f, accepted)); StateOk(cfg, s') && Absent(s', x)
  {
    hide StateOk, Absent, Client.Next;
    NextKeeps(cfg, s, FrameStep(f, accepted));
    NextAbsent(cfg, s, FrameStep(f, accepted), x);
  }

  lemma TerminateOkAbsent(cfg: Client.Config, s: Client.State, x: RequestId)
    requires Client.ValidConfig(cfg) && StateOk(cfg, s) && Absent(s, x) && !Client.MicrotaskDue(s)
    ensures StateOk(cfg, Client.Terminate(s)) && Absent(Client.Terminate(s), x)
  {
    hide StateOk, Absent, Client.Terminate;
    TerminateKeeps(cfg, s);
    TerminateAbsent(s, x);
  }

  predicate Reopens(step: Step, x: RequestId) {
    step.ClientStep? && Opens(step.cstep, x)
  }

  /** Any step of client or servers, with no guard, that does not open the id again. */
  lemma StepAbsent(cfg: Client.Config, max: nat, sys: System, step: Step, x: RequestId)
    requires Client.ValidConfig(cfg) && StateOk(cfg, sys.client) && Absent(sys.client, x)
    requires Enabled(max, sys, step) && !Reopens(step, x)
    ensures var s' := Next(cfg, max, sys, step).client; StateOk(cfg, s') && Absent(s', x)
  {
    hide StateOk, Absent, Client.Next, Client.Terminate, Client.Enabled, Starts;
    match step
    case ClientStep(cstep, _, _) =>
      NextKeeps(cfg, sys.client, cstep);
      NextAbsent(cfg, sys.client, cstep, x);
    case ServerStep(_, _) =>
    case DeliverStep(g, accepted) =>
      var f := sys.peers[g].output[sys.cursors[g]];
      TerminateOkAbsent(cfg, sys.client, x);
      if sys.client.child == Some(g) && f.id.Some? {
        FrameStepAbsent(cfg, sys.client, f, accepted, x);
      }
  }

  lemma {:induction false} RunAbsent(cfg: Client.Config, max: nat, sys: System, steps: seq<Step>, x: RequestId)
    requires Client.ValidConfig(cfg) && StateOk(cfg, sys.client) && Absent(sys.client, x)
    requires Correlation.Run(cfg, max, sys, steps).Some? && forall i :: 0 <= i < |steps| ==> !Reopens(steps[i], x)
    ensures var s' := Correlation.Run(cfg, max, sys, steps).value.client; StateOk(cfg, s') && Absent(s', x)
    decreases |steps|
  {
    hide StateOk, Absent, Next, Enabled;
    if steps == [] {
    } else {
      assert !Reopens(steps[0], x);
      StepAbsent(cfg, max, sys, steps[0], x);
      RunAbsent(cfg, max, Next(cfg, max, sys, steps[0]), steps[1..], x);
    }
  }

  // ----- the claim

  /** A frame under an absent id is taken for an unknown one. */
  lemma AbsentFrame(cfg: Client.Config, s: Client.State, f: Server.Frame, accepted: bool)
    requires Client.ValidConfig(cfg) && StateOk(cfg, s) && s.child.Some? && f.id.Some? && Absent(s, f.id.value)
    requires Client.Enabled(s, FrameStep(f, accepted))
    ensures var s' := Client.Next(cfg, s, FrameStep(f, accepted));
      s'.deliveries == s.deliveries && (s'.protocolQuarantined || s'.child.None?)
  {
    hide StateOk, Client.Quarantine, Client.ClearPending, Client.Terminate;
    QuarantineTakesDown(cfg, s, f.id.value);
  }

  lemma QuarantineTakesDown(cfg: Client.Config, s: Client.State, id: RequestId)
    requires StateOk(cfg, s)
    ensures var s' := Client.Quarantine(cfg, s, id);
      s'.deliveries == s.deliveries && (s'.protocolQuarantined || s'.child.None?)
  {
    hide RoutesOk, WritesOk, LiveRoutesOk, AdmissionOk, NegotiationOk, Client.Terminate;
    FailRoutesRest(s);
    FailRoutesRest(s.(quarantinedRequestIds := s.quarantinedRequestIds + {id}, protocolQuarantined := false));
    assert s.(protocolQuarantined := false, quarantinedRequestIds := s.quarantinedRequestIds + {id})
        == s.(quarantinedRequestIds := s.quarantinedRequestIds + {id}, protocolQuarantined := true).(protocolQuarantined := false);
  }

  lemma FailRoutesRest(s: Client.State)
    ensures Client.Terminate(s).deliveries == s.deliveries && Client.Terminate(s).child.None?
  {
    hide FailAll, Retire;
  }

  lemma HitIsAbsent(cfg: Client.Config, max: nat, sys: System)
    requires Client.ValidConfig(cfg) && SystemOk(cfg, max, sys, false)
    requires Enabled(max, sys, HIT) && !Obeys(NoHit, sys.client, HIT)
    requires Retired(sys.client.writes)[0].id.Caller?
    ensures var s' := Next(cfg, max, sys, HIT).client; StateOk(cfg, s') && Absent(s', Retired(sys.client.writes)[0].id)
  {
    SystemParts(cfg, max, sys, false);
    hide SystemOk, StateOk, Tidy, Matched, PeersOk, CurrentOk, Client.Next, Client.Enabled;
    HitStep(cfg, max, sys);
    NextKeeps(cfg, sys.client, HIT.cstep);
  }

  /** After a hit, in every run of client and servers that does not open the id again:
      whenever the current child says anything under that id, be its line still unread,
      in a task, or far down the output when the hit came, the frame is delivered to
      nobody, and it quarantines the transport or takes the child down. */
  lemma LateAnswersAreLost(cfg: Client.Config, max: nat, sys: System, steps: seq<Step>, late: System, accepted: bool)
    requires Client.ValidConfig(cfg) && SystemOk(cfg, max, sys, false)
    requires Enabled(max, sys, HIT) && !Obeys(NoHit, sys.client, HIT)
    requires Retired(sys.client.writes)[0].id.Caller?
    requires forall i :: 0 <= i < |steps| ==> !Reopens(steps[i], Retired(sys.client.writes)[0].id)
    requires Correlation.Run(cfg, max, Next(cfg, max, sys, HIT), steps) == Some(late)
    requires late.client.child.Some? && Enabled(max, late, DeliverStep(late.client.child.value, accepted))
    requires var g := late.client.child.value;
      late.peers[g].output[late.cursors[g]].id == Some(Retired(sys.client.writes)[0].id)
    ensures var end := Next(cfg, max, late, DeliverStep(late.client.child.value, accepted)).client;
      end.deliveries == late.client.deliveries && (end.protocolQuarantined || end.child.None?)
  {
    var id, g := Retired(sys.client.writes)[0].id, late.client.child.value;
    hide SystemOk, StateOk, Absent, Correlation.Run, Client.Next, Client.Terminate, Client.Enabled, Obeys;
    HitIsAbsent(cfg, max, sys);
    RunAbsent(cfg, max, Next(cfg, max, sys, HIT), steps, id);
    FrameStepAbsent(cfg, late.client, late.peers[g].output[late.cursors[g]], accepted, id);
    AbsentFrame(cfg, late.client, late.peers[g].output[late.cursors[g]], accepted);
  }
}
