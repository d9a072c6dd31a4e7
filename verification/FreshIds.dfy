/**
 Callers that never use an id twice, as the library's own client does, are prudent in
 every run, and so the end-to-end claim holds of them: every unfinished write carries an
 id that some call has used.
*/
module FreshIds {
  import opened Correlation
  import opened Custody
  import opened Ledger
  import opened Progress
  import opened Routes
  import opened TransportInvariant
  import opened Wire
  import opened WriteQueue
  import Client = Transport
  import Server = StdioServer

  function IdsIn(q: seq<Admission>): set<RequestId> {
    set a | a in q :: a.id
  }

  function WriteIds(s: Client.State): set<RequestId> {
    IdsIn(ActiveWrites(s.writes))
  }

  function UsedIds(s: Client.State): set<RequestId> {
    set id | id in s.routes.calls
  }

  ghost predicate Known(s: Client.State) {
    forall id :: id in WriteIds(s) && id.Caller? ==> id in UsedIds(s)
  }

  /** A caller's line is queued only under an id that was already in use. */
  ghost predicate Traceable(s: Client.State, s': Client.State) {
    forall id :: id in WriteIds(s') && id.Caller? ==> id in WriteIds(s) || id in UsedIds(s)
  }

  lemma TraceableKeeps(s: Client.State, s': Client.State)
    requires Known(s) && Traceable(s, s') && s.routes.calls <= s'.routes.calls
    ensures Known(s')
  {
    assert UsedIds(s) <= UsedIds(s');
  }

  // ----- the queue

  lemma ChargeIds(w: Writes, a: Admission)
    ensures IdsIn(ActiveWrites(Charge(w, a))) == IdsIn(ActiveWrites(w)) + {a.id}
  {
    assert ActiveWrites(Charge(w, a)) == ActiveWrites(w) + [a];
  }

  lemma ChainIds(w: Writes, retired: bool, q: seq<Admission>)
    requires retired ==> w.retired.Some?
    requires IdsIn(q) <= IdsIn(Chain(w, retired))
    ensures IdsIn(ActiveWrites(WithChain(w, retired, q))) <= IdsIn(ActiveWrites(w))
  {
    var w' := WithChain(w, retired, q);
    forall id | id in IdsIn(ActiveWrites(w'))
      ensures id in IdsIn(ActiveWrites(w))
    {
      var a :| a in ActiveWrites(w') && a.id == id;
      if a in q {
        assert id in IdsIn(Chain(w, retired));
        var b :| b in Chain(w, retired) && b.id == id;
        assert b in ActiveWrites(w);
      } else {
        assert a in ActiveWrites(w);
      }
    }
  }

  lemma StartIds(w: Writes, retired: bool)
    requires Chain(w, retired) != []
    ensures IdsIn(ActiveWrites(MarkStarted(w, retired))) <= IdsIn(ActiveWrites(w))
  {
    var q := Chain(w, retired);
    var q' := [q[0].(started := true)] + q[1..];
    forall id | id in IdsIn(q')
      ensures id in IdsIn(q)
    {
      assert q[0] in q;
    }
    ChainIds(w, retired, q');
  }

  lemma ReleaseIds(w: Writes, retired: bool)
    requires Chain(w, retired) != []
    ensures IdsIn(ActiveWrites(Release(w, retired))) <= IdsIn(ActiveWrites(w))
  {
    var q := Chain(w, retired);
    assert IdsIn(q[1..]) <= IdsIn(q);
    ChainIds(w, retired, q[1..]);
    assert ActiveWrites(Release(w, retired)) == ActiveWrites(WithChain(w, retired, q[1..]));
  }

  lemma FinishIds(w: Writes)
    requires w.retired == Some([])
    ensures ActiveWrites(FinishRetired(w)) == ActiveWrites(w)
  {
  }

  // ----- the transport's operations

  lemma TerminateIds(s: Client.State)
    ensures WriteIds(Client.Terminate(s)) == WriteIds(s)
  {
    TerminateWrites(s);
    hide Client.Terminate;
  }

  lemma RecycleIds(s: Client.State)
    ensures WriteIds(Client.RecycleQuarantined(s)) == WriteIds(s)
    ensures WriteIds(Client.MaybeRecycle(s)) == WriteIds(s)
  {
    hide Client.Terminate, WriteIds;
    TerminateIds(s.(protocolQuarantined := false));
    SameWrites(s, s.(protocolQuarantined := false));
  }

  lemma SameWrites(s: Client.State, s': Client.State)
    requires s'.writes == s.writes
    ensures WriteIds(s') == WriteIds(s)
  {
  }

  lemma ClearIds(cfg: Client.Config, s: Client.State, id: RequestId, tombstone: bool, after: Client.Handshake)
    requires IsPending(s.routes, id)
    ensures WriteIds(Client.ClearPending(cfg, s, id, tombstone, after)) == WriteIds(s)
  {
    hide Client.Terminate, Client.MaybeRecycle, DropPending, WriteIds;
    var t := Client.Tombstone(if id in s.routes.pendingResponses then Unary else Stream, PendingOf(s.routes, id).serial);
    var s1 := Detach(s, id, after);
    var s2 := if tombstone then Client.AddTombstone(cfg, s1, id, t) else s1;
    SameWrites(s, s1);
    TerminateIds(s1);
    SameWrites(s1, s1.(tombstones := s1.tombstones[id := t]));
    RecycleIds(s2);
  }

  lemma SubmitIds(cfg: Client.Config, s: Client.State, id: RequestId, kind: Kind, line: Line, serial: nat)
    requires IsPending(s.routes, id)
    ensures WriteIds(Client.Submit(cfg, s, id, kind, line, serial)) <= WriteIds(s) + {id}
  {
    hide Client.ClearPending, Charge;
    if Client.CanWrite(cfg, s, line) {
      ChargeIds(s.writes, Admission(id, kind, serial, line.bytes, s.child.value, false));
    } else {
      ClearIds(cfg, s, id, false, Client.Broken(false));
    }
  }

  lemma IssueIds(cfg: Client.Config, s: Client.State, id: RequestId, slot: bool)
    requires IsWaiting(s.routes, id) && s.child.Some?
    ensures WriteIds(Client.Issue(cfg, s, id, slot)) <= WriteIds(s) + {id}
  {
    var kind := if id in s.routes.waitingRequests then Unary else Stream;
    var s1 := Launched(s, id, slot);
    assert IsPending(s1.routes, id);
    hide Client.Submit, Launch, WriteIds;
    SameWrites(s, s1);
    SubmitIds(cfg, s1, id, kind, WaitingOf(s.routes, id).line, s.serials);
  }

  lemma WaiterIsUsed(cfg: Client.Config, s: Client.State, id: RequestId)
    requires StateOk(cfg, s) && IsWaiting(s.routes, id)
    ensures id in UsedIds(s)
  {
    WaitingFacts(s, id);
    assert s.routes.calls[ViewOf(s.routes)[id].call] == id;
  }

  lemma ResumeIds(cfg: Client.Config, s: Client.State, id: RequestId)
    requires IsWaiting(s.routes, id) && WaitingOf(s.routes, id).phase.Released?
    ensures WriteIds(Client.Resume(cfg, s, id)) <= WriteIds(s) + {id}
  {
    hide Client.Issue, DropWaiting, AcquireSlot, Client.CanPromote, WriteIds;
    if s.child.Some? {
      IssueIds(cfg, s, id, false);
    }
    SameWrites(s, Client.RejectWaiting(s, id, false));
    SameWrites(s, s.(routes := AcquireSlot(s.routes, id)));
  }

  lemma WantedIds(cfg: Client.Config, s: Client.State, id: RequestId)
    requires IsWaiting(s.routes, id)
    ensures s.child.Some? ==> WriteIds(Client.Issue(cfg, s, id, true)) <= WriteIds(s) + {id}
    ensures WriteIds(Client.RejectWaiting(s, id, true)) == WriteIds(s)
  {
    hide Client.Issue, DropWaiting, WriteIds;
    if s.child.Some? {
      IssueIds(cfg, s, id, true);
    }
    SameWrites(s, Client.RejectWaiting(s, id, true));
  }

  lemma WantedWaits(cfg: Client.Config, s: Client.State)
    requires StateOk(cfg, s) && SlotWanted(s.routes)
    ensures IsWaiting(s.routes, s.routes.calls[s.routes.slots[0]])
  {
  }

  lemma GrantIds(cfg: Client.Config, s: Client.State)
    requires StateOk(cfg, s) && s.routes.slots != []
    ensures WriteIds(Client.Grant(cfg, s)) <= WriteIds(s) + UsedIds(s)
  {
    if SlotWanted(s.routes) {
      var id := s.routes.calls[s.routes.slots[0]];
      WantedWaits(cfg, s);
      WaiterIsUsed(cfg, s, id);
      WantedIds(cfg, s, id);
      hide StateOk, ViewOf, Client.Issue, Client.RejectWaiting, Client.CanPromote, Client.CanIssue, WriteIds, UsedIds;
    } else {
      hide StateOk, ViewOf;
      SameWrites(s, s.(routes := SkipSlot(s.routes)));
    }
  }

  lemma ProbeIds(cfg: Client.Config, s: Client.State, stage: Client.Stage)
    ensures var (s1, started) := Client.Probe(cfg, s, stage);
      WriteIds(s1) <= WriteIds(s) + {Client.ControlId(s)} && (!started ==> WriteIds(s1) == WriteIds(s))
  {
    hide Client.IsFreeId, Client.HasCapacity, Client.Submit;
    var id := Client.ControlId(s);
    var s1 := s.(handshakeGeneration := s.handshakeGeneration + 1);
    if Client.IsFreeId(s1, id, true) && Client.HasCapacity(cfg, s1, true) {
      var child := if s.child.Some? then s.child.value else 0;
      var s2 := s1.(routes := OpenControl(s.routes, id, s.serials, child),
                    serials := s.serials + 1,
                    handshake := Client.Probing(id, stage));
      SubmitIds(cfg, s2, id, Unary, Line(if stage == Client.Hello then cfg.helloBytes else cfg.probeBytes, true), s.serials);
    }
  }

  lemma EnsureIds(cfg: Client.Config, s: Client.State)
    ensures forall id :: id in WriteIds(Client.EnsureHandshake(cfg, s).0) && id.Caller? ==> id in WriteIds(s)
  {
    hide Client.Probe, WriteIds;
    SameWrites(s, Client.Spawn(s));
    ProbeIds(cfg, if s.child.None? then Client.Spawn(s) else s, Client.Hello);
  }

  lemma AskIds(cfg: Client.Config, s: Client.State, id: RequestId)
    requires var s1 := Client.EnsureHandshake(cfg, s).0; IsWaiting(s1.routes, id)
    ensures var (s1, v) := Client.EnsureHandshake(cfg, s);
      forall x :: x in WriteIds(Client.AfterEnsure(s1, v, id)) && x.Caller? ==> x in WriteIds(s)
  {
    EnsureIds(cfg, s);
    var (s1, v) := Client.EnsureHandshake(cfg, s);
    SameWrites(s1, Client.AfterEnsure(s1, v, id)) by {
      hide Client.EnsureHandshake, SetPhase, DropWaiting;
    }
    hide Client.EnsureHandshake, Client.AfterEnsure, WriteIds;
  }

  lemma RequestIds(cfg: Client.Config, s: Client.State, id: RequestId, line: Line)
    ensures Traceable(s, Client.Request(cfg, s, id, line))
  {
    hide Client.IsFreeId, Client.HasCapacity, Client.EnsureHandshake, Client.AfterEnsure, WriteIds, UsedIds;
    if Client.IsFreeId(s, id, false) && Client.HasCapacity(cfg, s, false) {
      var s1 := s.(routes := Open(s.routes, Unary, id, line));
      SameWrites(s, s1);
      EnsureIds(cfg, s1);
      if IsWaiting(Client.EnsureHandshake(cfg, s1).0.routes, id) {
        AskIds(cfg, s1, id);
      }
    }
  }

  lemma StreamHandshakeIds(cfg: Client.Config, s: Client.State, id: RequestId)
    requires IsWaiting(s.routes, id)
    ensures Traceable(s, Client.StreamHandshake(cfg, s, id))
  {
    hide Client.EnsureHandshake, Client.AfterEnsure, WriteIds, UsedIds;
    EnsureIds(cfg, s);
    if IsWaiting(Client.EnsureHandshake(cfg, s).0.routes, id) {
      AskIds(cfg, s, id);
    }
  }

  lemma NextProbeIds(cfg: Client.Config, s: Client.State, stage: Client.Stage)
    ensures Traceable(s, Client.NextProbe(cfg, s, stage))
  {
    hide Client.Probe, Client.GiveUp, WriteIds, UsedIds;
    ProbeIds(cfg, s, stage);
    GiveUpIds(Client.Probe(cfg, s, stage).0);
  }

  lemma GiveUpIds(s: Client.State)
    ensures WriteIds(Client.GiveUp(s)) == WriteIds(s)
  {
    hide Client.MaybeRecycle, ReleaseWaiters, WriteIds;
    var s1 := s.(handshakeState := Client.Unknown, handshake := Client.NoHandshake, routes := ReleaseWaiters(s.routes, false));
    SameWrites(s, s1);
    RecycleIds(s1);
  }

  lemma SucceedIds(s: Client.State, h: Client.HandshakeState)
    ensures WriteIds(Client.Succeed(s, h)) == WriteIds(s)
  {
    hide Client.MaybeRecycle, ReleaseWaiters, WriteIds;
    var s1 := s.(
      handshakeState := h,
      handshake := Client.NoHandshake,
      routes := ReleaseWaiters(s.routes, true),
      negotiated := if s.child.Some? then s.negotiated + {s.child.value} else s.negotiated);
    SameWrites(s, s1);
    RecycleIds(s1);
  }

  lemma BlockIds(s: Client.State)
    ensures WriteIds(Client.Block(s)) == WriteIds(s)
  {
    hide Client.MaybeRecycle, Client.Terminate, WriteIds;
    TerminateIds(s);
    var s1 := Client.Terminate(s).(handshakeState := Client.Blocked, handshake := Client.NoHandshake);
    SameWrites(Client.Terminate(s), s1);
    RecycleIds(s1);
  }

  lemma ContinueIds(cfg: Client.Config, s: Client.State)
    requires Client.MicrotaskDue(s)
    ensures Traceable(s, Client.ContinueHandshake(cfg, s))
  {
    hide Client.Succeed, Client.GiveUp, Client.Block, Client.NextProbe, WriteIds, UsedIds;
    GiveUpIds(s);
    BlockIds(s);
    if s.handshake.Answered? {
      SucceedIds(s, Client.Ready);
      SucceedIds(s, Client.SingleFlight);
      SucceedIds(s, Client.Legacy);
      NextProbeIds(cfg, s, Client.LegacyVersion);
      NextProbeIds(cfg, s, Client.LegacyCapabilities(true));
      NextProbeIds(cfg, s, Client.LegacyCapabilities(false));
    }
  }

  lemma GiveUpOnIds(cfg: Client.Config, s: Client.State, id: RequestId, after: Client.Handshake)
    requires IsPending(s.routes, id)
    ensures var s1 := Client.ClearPending(cfg, s, id, true, after);
      WriteIds(s1) == WriteIds(s) && WriteIds(Client.Terminate(s1)) == WriteIds(s)
  {
    hide Client.ClearPending, Client.Terminate, WriteIds;
    ClearIds(cfg, s, id, true, after);
    TerminateIds(Client.ClearPending(cfg, s, id, true, after));
  }

  lemma CancelIds(cfg: Client.Config, s: Client.State, id: RequestId, rejection: bool)
    ensures WriteIds(Client.Cancel(cfg, s, id, rejection)) == WriteIds(s)
  {
    hide Client.ClearPending, Client.Terminate, DropWaiting, Client.HasStartedWrite, WriteIds;
    if IsWaiting(s.routes, id) {
      SameWrites(s, Client.RejectWaiting(s, id, false));
    } else if IsPending(s.routes, id) {
      GiveUpOnIds(cfg, s, id, Client.Broken(rejection));
    }
  }

  lemma DeadlineIds(cfg: Client.Config, s: Client.State, id: RequestId)
    requires IsPending(s.routes, id)
    ensures WriteIds(Client.Deadline(cfg, s, id)) == WriteIds(s)
  {
    hide Client.ClearPending, Client.Terminate, Client.HasStartedWrite, WriteIds;
    GiveUpOnIds(cfg, s, id, Client.Broken(false));
  }

  lemma WriteRejectedIds(cfg: Client.Config, s: Client.State, a: Admission, tombstone: bool)
    ensures WriteIds(Client.WriteRejected(cfg, s, a, tombstone)) == WriteIds(s)
  {
    hide Client.ClearPending, WriteIds;
    if IsPending(s.routes, a.id) {
      ClearIds(cfg, s, a.id, tombstone, Client.Broken(false));
    }
  }

  lemma WriteStepIds(cfg: Client.Config, s: Client.State, retired: bool, ok: bool)
    requires Chain(s.writes, retired) != []
    ensures WriteIds(Client.BeginWrite(cfg, s, retired)) <= WriteIds(s)
    ensures WriteIds(Client.EndWrite(cfg, s, retired, ok)) <= WriteIds(s)
  {
    hide Client.WriteRejected, Release, MarkStarted, Client.MayStart, IdsIn, ActiveWrites;
    var a := Chain(s.writes, retired)[0];
    var s1 := s.(writes := Release(s.writes, retired));
    var unsent := a.id.Control? || s.closed || s.protocolQuarantined || s.handshakeState != Client.Blocked;
    ReleaseIds(s.writes, retired);
    StartIds(s.writes, retired);
    WriteRejectedIds(cfg, s1, a, !unsent);
    WriteRejectedIds(cfg, s1, a, true);
  }

  lemma QuarantineIds(cfg: Client.Config, s: Client.State, id: RequestId)
    ensures WriteIds(Client.Quarantine(cfg, s, id)) == WriteIds(s)
  {
    hide Client.Terminate, Client.MaybeRecycle, WriteIds;
    var s1 := s.(quarantinedRequestIds := s.quarantinedRequestIds + {id}, protocolQuarantined := true);
    TerminateIds(s);
    SameWrites(s, s1);
    RecycleIds(s1);
  }

  lemma DeliveredIds(cfg: Client.Config, s: Client.State, id: RequestId, serial: nat, after: Client.Handshake)
    requires IsPending(s.routes, id) && s.child.Some?
    ensures WriteIds(Client.Deliver(s, id, serial)) == WriteIds(s)
    ensures WriteIds(Client.ClearPending(cfg, Client.Deliver(s, id, serial), id, false, after)) == WriteIds(s)
  {
    hide Client.ClearPending, WriteIds;
    SameWrites(s, Client.Deliver(s, id, serial));
    ClearIds(cfg, Client.Deliver(s, id, serial), id, false, after);
  }

  lemma FrameIds(cfg: Client.Config, s: Client.State, id: RequestId, reply: Reply, t: EventType, accepted: bool, serial: nat)
    requires s.child.Some?
    ensures WriteIds(Client.HandleResponse(cfg, s, id, reply, serial)) == WriteIds(s)
    ensures WriteIds(Client.HandleEvent(cfg, s, id, t, accepted, serial)) == WriteIds(s)
  {
    hide Client.ClearPending, Client.Terminate, Client.Quarantine, Client.Deliver, WriteIds;
    TerminateIds(s);
    QuarantineIds(cfg, s, id);
    SameWrites(s, s.(tombstones := s.tombstones - {id}));
    if IsPending(s.routes, id) {
      var stage := if s.handshake.Probing? then s.handshake.stage else Client.Hello;
      DeliveredIds(cfg, s, id, serial, Client.Answered(stage, reply));
      DeliveredIds(cfg, s, id, serial, Client.Broken(false));
      ClearIds(cfg, s, id, true, Client.Broken(false));
    }
  }

  lemma CloseIds(s: Client.State)
    ensures WriteIds(Client.Close(s)) == WriteIds(s)
  {
    hide Client.Terminate, WriteIds;
    SameWrites(s, s.(closed := true));
    TerminateIds(s.(closed := true));
  }

  lemma NextIds(cfg: Client.Config, s: Client.State, step: Client.Step)
    requires StateOk(cfg, s) && Client.Enabled(s, step)
    ensures Traceable(s, Client.Next(cfg, s, step))
  {
    hide StateOk, WriteIds, UsedIds, Client.Request, Client.OpenStream, Client.StreamHandshake, Client.Resume, Client.Grant;
    hide Client.ContinueHandshake, Client.Cancel, Client.Close, Client.BeginWrite, Client.EndWrite, Client.Deadline;
    hide Client.HandleResponse, Client.HandleEvent, Client.Terminate, Client.RecycleQuarantined, FinishRetired;
    match step
    case RequestStep(id, line) => RequestIds(cfg, s, id, line);
    case OpenStreamStep(id, line) => OpenStreamIds(cfg, s, id, line);
    case StreamHandshakeStep(id) => StreamHandshakeIds(cfg, s, id);
    case ResumeStep(id) =>
      ResumeIds(cfg, s, id);
      WaiterIsUsed(cfg, s, id);
    case GrantStep => GrantIds(cfg, s);
    case ContinueStep => ContinueIds(cfg, s);
    case CancelStep(id, rejection) => CancelIds(cfg, s, id, rejection);
    case CloseStep => CloseIds(s);
    case BeginWriteStep(retired) => WriteStepIds(cfg, s, retired, true);
    case FinishRetiredStep => FinishedIds(s);
    case DeadlineStep(id) => DeadlineIds(cfg, s, id);
    case EndWriteStep(retired, ok) => WriteStepIds(cfg, s, retired, ok);
    case ResponseStep(id, reply, serial) => FrameIds(cfg, s, id, reply, Item, true, serial);
    case EventStep(id, t, accepted, serial) => FrameIds(cfg, s, id, Failure(OtherFailure), t, accepted, serial);
    case TerminateStep => TerminateIds(s);
    case QuarantineTimerStep => RecycleIds(s);
  }

  lemma OpenStreamIds(cfg: Client.Config, s: Client.State, id: RequestId, line: Line)
    ensures WriteIds(Client.OpenStream(cfg, s, id, line)) == WriteIds(s)
  {
    hide WriteIds, Client.IsFreeId, Client.HasCapacity;
    SameWrites(s, Client.OpenStream(cfg, s, id, line));
  }

  lemma FinishedIds(s: Client.State)
    requires s.writes.retired == Some([])
    ensures WriteIds(s.(writes := FinishRetired(s.writes))) == WriteIds(s)
  {
    FinishIds(s.writes);
    hide FinishRetired;
  }

  lemma NextKeepsKnown(cfg: Client.Config, s: Client.State, step: Client.Step)
    requires Client.ValidConfig(cfg) && StateOk(cfg, s) && Known(s) && Client.Enabled(s, step)
    ensures Known(Client.Next(cfg, s, step))
  {
    hide StateOk, Client.Next, Client.Enabled, Known, Traceable;
    NextIds(cfg, s, step);
    NextForward(cfg, s, step);
    TraceableKeeps(s, Client.Next(cfg, s, step));
  }

  lemma TerminateKeepsKnown(s: Client.State)
    requires Known(s)
    ensures Known(Client.Terminate(s))
  {
    hide Client.Terminate, WriteIds, UsedIds, FailAll;
    TerminateIds(s);
    TerminateCalls(s);
  }

  lemma TerminateCalls(s: Client.State)
    ensures UsedIds(Client.Terminate(s)) == UsedIds(s)
  {
    hide Retire, ViewOf, SlotHeld;
  }

  lemma ClientStepKeepsKnown(cfg: Client.Config, max: nat, sys: System, step: Step)
    requires Client.ValidConfig(cfg) && StateOk(cfg, sys.client) && Known(sys.client)
    requires step.ClientStep? && Enabled(max, sys, step)
    ensures Known(Next(cfg, max, sys, step).client)
  {
    NextKeepsKnown(cfg, sys.client, step.cstep);
    hide Known, StateOk, Client.Next, Client.Enabled, Prudent, Starts;
  }

  lemma FrameKeepsKnown(cfg: Client.Config, s: Client.State, f: Server.Frame, accepted: bool)
    requires Client.ValidConfig(cfg) && StateOk(cfg, s) && Known(s)
    requires s.child.Some? && !Client.MicrotaskDue(s) && f.id.Some?
    ensures Client.Enabled(s, FrameStep(f, accepted)) && Known(Client.Next(cfg, s, FrameStep(f, accepted)))
  {
    hide StateOk, Known, Client.Next;
    NextKeepsKnown(cfg, s, FrameStep(f, accepted));
  }

  lemma DeliverStepKeepsKnown(cfg: Client.Config, max: nat, sys: System, step: Step)
    requires Client.ValidConfig(cfg) && StateOk(cfg, sys.client) && Known(sys.client)
    requires step.DeliverStep? && Enabled(max, sys, step)
    ensures Known(Next(cfg, max, sys, step).client)
  {
    hide Known, StateOk, Client.Next, Client.Terminate, Client.Enabled, Client.ValidConfig;
    var f := sys.peers[step.child].output[sys.cursors[step.child]];
    TerminateKeepsKnown(sys.client);
    if sys.client.child == Some(step.child) && f.id.Some? {
      FrameKeepsKnown(cfg, sys.client, f, step.accepted);
    }
  }

  lemma SystemKeepsKnown(cfg: Client.Config, max: nat, sys: System, step: Step)
    requires Client.ValidConfig(cfg) && StateOk(cfg, sys.client) && Known(sys.client) && Enabled(max, sys, step)
    ensures Known(Next(cfg, max, sys, step).client)
  {
    hide Known, StateOk, Enabled;
    match step
    case ClientStep(_, _, _) => ClientStepKeepsKnown(cfg, max, sys, step);
    case ServerStep(_, _) =>
    case DeliverStep(_, _) => DeliverStepKeepsKnown(cfg, max, sys, step);
  }

  // ----- callers with fresh ids

  lemma FreshIsPrudent(s: Client.State, step: Client.Step)
    requires Known(s) && IsFresh(s, step)
    ensures Prudent(s, step)
  {
    if step.RequestStep? || step.OpenStreamStep? {
      forall a | a in Retired(s.writes) && !a.started
        ensures a.id != step.id
      {
        assert a in ActiveWrites(s.writes);
        assert a.id in WriteIds(s);
      }
    }
  }

  lemma FreshStep(sys: System, step: Step)
    requires Known(sys.client) && Obeys(Freshness, sys.client, step)
    ensures Obeys(Prudence, sys.client, step)
  {
    hide Known, IsFresh, Prudent;
    if step.ClientStep? {
      FreshIsPrudent(sys.client, step.cstep);
    }
  }

  lemma ClientOk(cfg: Client.Config, max: nat, sys: System)
    requires SystemOk(cfg, max, sys, true)
    ensures StateOk(cfg, sys.client)
  {
    SystemParts(cfg, max, sys, true);
    hide SystemOk, StateOk;
  }

  /** Freshness keeps `Known`, and `Known` turns freshness into prudence, step by step. */
  lemma {:induction false} FreshRunKeeps(cfg: Client.Config, max: nat, sys: System, steps: seq<Step>)
    requires Client.ValidConfig(cfg) && SystemOk(cfg, max, sys, true) && Known(sys.client)
    requires Observes(cfg, max, Freshness, sys, steps)
    ensures Observes(cfg, max, Prudence, sys, steps)
    decreases |steps|
  {
    hide SystemOk, Next, Enabled, Known, Obeys;
    if steps == [] {
    } else {
      FreshStep(sys, steps[0]);
      PrudentStep(cfg, max, sys, steps[0]);
      ClientOk(cfg, max, sys);
      SystemNextKeeps(cfg, max, sys, steps[0], true);
      SystemKeepsKnown(cfg, max, sys, steps[0]);
      FreshRunKeeps(cfg, max, Next(cfg, max, sys, steps[0]), steps[1..]);
    }
  }

  /** Whoever opens every call under an id of its own is prudent throughout the run, never
      meets a hit, and has every answer delivered to the call whose line it answers. */
  lemma FreshRunsAreCorrect(cfg: Client.Config, max: nat, steps: seq<Step>)
    requires Client.ValidConfig(cfg) && Observes(cfg, max, Freshness, START, steps)
    ensures Observes(cfg, max, Prudence, START, steps) && Observes(cfg, max, NoHit, START, steps)
    ensures var end := Correlation.Run(cfg, max, START, steps);
      && end.Some?
      && (forall d :: d in end.value.client.deliveries ==>
            d.routeSerial == d.frameSerial && d.routeChild == d.frameChild)
      && !end.value.client.protocolQuarantined
  {
    hide SystemOk, Correlation.Run, Observes, Known;
    StartOk(cfg, max, true);
    StartIsKnown();
    FreshRunKeeps(cfg, max, START, steps);
    PrudentRunsNeverHit(cfg, max, steps);
    FramesReachTheirOwnRoute(cfg, max, steps);
  }

  lemma StartIsKnown()
    ensures Known(START.client)
  {
  }
}
