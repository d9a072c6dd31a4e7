/**
 The transport object: the fields `StdioBackendTransport` keeps and the methods that
 update them, each held to the step specification in `Transport`. `Abstract` reads the
 object as one state; every entry point takes that state exactly where `Transport.Next`
 takes it, so what is proved of runs of `Next` is proved of this object.
*/
module StdioBackend {
  import opened Wire
  import opened Ledger
  import opened RoutingTables
  import opened WriteBudgets
  import Routes
  import Transport
  import TransportInvariant
  import WriteQueue

  /** Tombstones and quarantined ids: what a child may still say after its routes are gone. */
  class LateOutput {
    var tombstones: map<RequestId, Transport.Tombstone>
    var quarantinedRequestIds: set<RequestId>
    var protocolQuarantined: bool

    constructor ()
      ensures tombstones == map[] && quarantinedRequestIds == {} && !protocolQuarantined
    {
      tombstones, quarantinedRequestIds, protocolQuarantined := map[], {}, false;
    }

    method Forget()
      modifies this
      ensures tombstones == map[] && quarantinedRequestIds == {} && !protocolQuarantined
    {
      protocolQuarantined := false;
      tombstones := map[];
      quarantinedRequestIds := {};
    }
  }

  /** What the claims remember of a run; the program keeps none of it. */
  datatype History = History(negotiated: set<nat>, callerWrites: set<nat>, deliveries: set<Transport.Delivery>)

  class StdioBackendTransport {
    const cfg: Transport.Config
    const routes: RouteTables
    const writes: WriteBudget
    const late: LateOutput
    var child: Option<nat>
    var closed: bool
    var handshakeState: Transport.HandshakeState
    var handshakePromise: Transport.Handshake
    var handshakeGeneration: nat
    var spawned: nat
    var serials: nat
    ghost var history: History

    ghost function Abstract(): Transport.State
      reads this, routes, writes, late
    {
      Transport.State(child, spawned, closed, handshakeState, handshakePromise, handshakeGeneration,
                      routes.Table(), writes.Queue(), late.tombstones, late.quarantinedRequestIds,
                      late.protocolQuarantined, serials,
                      history.negotiated, history.callerWrites, history.deliveries)
    }

    ghost predicate Valid()
      reads this, routes, writes, late
    {
      Transport.ValidConfig(cfg) && TransportInvariant.StateOk(cfg, Abstract())
    }

    ghost predicate Tabled()
      reads routes
    {
      Routes.RoutesOk(routes.Table())
    }

    constructor (cfg: Transport.Config)
      requires Transport.ValidConfig(cfg)
      ensures this.cfg == cfg && Valid() && Abstract() == Transport.INITIAL
      ensures fresh(routes) && fresh(writes) && fresh(late)
    {
      this.cfg := cfg;
      routes := new RouteTables();
      writes := new WriteBudget();
      late := new LateOutput();
      child, closed := None, false;
      handshakeState, handshakePromise, handshakeGeneration := Transport.Unknown, Transport.NoHandshake, 0;
      spawned, serials := 0, 0;
      history := History({}, {}, {});
      new;
      InitiallyValid();
    }

    lemma InitiallyValid()
      requires Transport.ValidConfig(cfg) && Abstract() == Transport.INITIAL
      ensures Valid()
    {
      TransportInvariant.InitialOk(cfg);
    }

    // ----- teardown

    method FailAll()
      requires Tabled()
      modifies this`handshakePromise, routes
      ensures Abstract() == Transport.FailRoutes(old(Abstract())) && Tabled()
    {
      hide Routes.RoutesOk, Routes.FailAll;
      routes.FailAll();
      if handshakePromise.Probing? {
        handshakePromise := Transport.Broken(false);
      }
    }

    /** `terminate`, and `handleProcessFailure`, which leaves the same state behind. */
    method Terminate()
      requires Tabled()
      modifies this, routes, writes, late
      ensures Abstract() == Transport.Terminate(old(Abstract())) && Tabled()
    {
      hide Routes.RoutesOk, Routes.FailAll, WriteQueue.Retire;
      if child.Some? {
        writes.Retire(child.value);
        child := None;
        handshakeState := Transport.Unknown;
        late.Forget();
      }
      FailAll();
    }

    method RecycleQuarantinedTransport()
      requires Tabled()
      modifies this, routes, writes, late
      ensures Abstract() == Transport.RecycleQuarantined(old(Abstract())) && Tabled()
    {
      hide Routes.RoutesOk, Transport.Terminate;
      if !late.protocolQuarantined {
        return;
      }
      late.protocolQuarantined := false;
      if child.Some? {
        Terminate();
      }
    }

    method MaybeRecycleQuarantined()
      requires Tabled()
      modifies this, routes, writes, late
      ensures Abstract() == Transport.MaybeRecycle(old(Abstract())) && Tabled()
    {
      hide Routes.RoutesOk, Transport.RecycleQuarantined;
      if !late.protocolQuarantined || !handshakePromise.NoHandshake? {
        return;
      }
      if routes.pendingResponses != map[] || routes.pendingStreams != map[]
         || routes.waitingRequests != map[] || routes.waitingStreams != map[] {
        return;
      }
      RecycleQuarantinedTransport();
    }

    // ----- settling a pending route

    /** The tombstone half of `releaseRequestId`. */
    method AddTombstone(id: RequestId, t: Transport.Tombstone)
      requires Tabled()
      modifies this, routes, writes, late
      ensures Abstract() == Transport.AddTombstone(cfg, old(Abstract()), id, t) && Tabled()
    {
      hide Routes.RoutesOk, Transport.Terminate;
      if |late.tombstones| >= cfg.tombstoneLimit && id !in late.tombstones {
        Terminate();
        return;
      }
      late.tombstones := late.tombstones[id := t];
    }

    method SettlePending(id: RequestId, after: Transport.Handshake)
      requires Tabled() && Routes.IsPending(routes.Table(), id)
      modifies this`handshakePromise, routes
      ensures Abstract() == TransportInvariant.Detach(old(Abstract()), id, after) && Tabled()
    {
      hide Routes.RoutesOk, Routes.DropPending;
      routes.OneTable(id);
      FailAllAbsorbsPending(routes.Table(), id);
      routes.SettlePending(id);
      if handshakePromise.Probing? && handshakePromise.id == id {
        handshakePromise := after;
      }
    }

    /** `clearResponse` and `clearStream`; `after` is where a probe's own rejection or
        response leaves the handshake. */
    method ClearPending(id: RequestId, tombstone: bool, after: Transport.Handshake)
      requires Tabled() && Routes.IsPending(routes.Table(), id)
      modifies this, routes, writes, late
      ensures Abstract() == Transport.ClearPending(cfg, old(Abstract()), id, tombstone, after) && Tabled()
    {
      hide Routes.RoutesOk, Routes.DropPending, Transport.AddTombstone, Transport.MaybeRecycle;
      var kind := if id in routes.pendingResponses then Unary else Stream;
      var serial := if id in routes.pendingResponses then routes.pendingResponses[id].serial else routes.pendingStreams[id].serial;
      SettlePending(id, after);
      if tombstone {
        AddTombstone(id, Transport.Tombstone(kind, serial));
      }
      MaybeRecycleQuarantined();
    }

    /** A route is given up on locally; once its line may have reached stdin, or its loss
        leaves the protocol out of step, so is the child. */
    method GiveUpOn(id: RequestId, after: Transport.Handshake, fatal: bool)
      requires Tabled() && Routes.IsPending(routes.Table(), id)
      modifies this, routes, writes, late
      ensures var s1 := Transport.ClearPending(cfg, old(Abstract()), id, true, after);
        Abstract() == if fatal || old(Transport.HasStartedWrite(Abstract(), id)) then Transport.Terminate(s1) else s1
    {
      hide Routes.RoutesOk, Transport.ClearPending, Transport.Terminate;
      var writeStarted := writes.HasStarted(id);
      ClearPending(id, true, after);
      if fatal || writeStarted {
        Terminate();
      }
    }

    method RejectWaiting(id: RequestId, granted: bool)
      requires Tabled() && Routes.IsWaiting(routes.Table(), id)
      modifies routes
      ensures Abstract() == Transport.RejectWaiting(old(Abstract()), id, granted)
    {
      hide Routes.DropWaiting;
      routes.OneTable(id);
      routes.CancelWaiting(id, granted);
    }

    // ----- admission

    /** `validateRequestId`. */
    method IsFreeId(id: RequestId, control: bool) returns (free: bool)
      ensures free <==> Transport.IsFreeId(Abstract(), id, control)
    {
      free := !closed && IsValidId(id) && (control || id.Caller?) && !late.protocolQuarantined
              && id !in routes.activeRequestIds && id !in routes.waitingAdmissionIds
              && id !in late.tombstones && id !in late.quarantinedRequestIds;
    }

    /** `assertAdmissionCapacity`. */
    method HasCapacity(control: bool) returns (capacity: bool)
      ensures capacity <==> Transport.HasCapacity(cfg, Abstract(), control)
    {
      var limit: int := cfg.maxInFlight;
      if !control && handshakeState == Transport.Unknown && routes.activeControlRequestIds == {} {
        limit := limit - 1;
      }
      capacity := |routes.waitingAdmissionIds| + |routes.activeRequestIds| < limit;
    }

    /** The checks of `promoteWaitingAdmission`, made with the waiting slot given up. */
    method CanPromote(id: RequestId) returns (promoted: bool)
      modifies routes`waitingAdmissionIds
      ensures promoted <==> Transport.CanPromote(cfg, old(Abstract()), id)
      ensures Abstract() == old(Abstract())
    {
      hide Transport.IsFreeId, Transport.HasCapacity;
      if id !in routes.waitingAdmissionIds {
        return false;
      }
      var waitingIds := routes.waitingAdmissionIds;
      routes.waitingAdmissionIds := waitingIds - {id};
      var free := IsFreeId(id, false);
      var capacity := HasCapacity(false);
      routes.waitingAdmissionIds := waitingIds;
      return free && capacity;
    }

    /** `assertCanIssue`. */
    method CanIssue() returns (can: bool)
      ensures can <==> Transport.CanIssue(Abstract())
    {
      can := !closed && !late.protocolQuarantined && handshakeState != Transport.Blocked && child.Some?;
    }

    // ----- issuing

    /** `write` up to its first await. */
    method Submit(id: RequestId, kind: Kind, line: Line, serial: nat)
      requires Tabled() && Routes.IsPending(routes.Table(), id)
      modifies this, routes, writes, late
      ensures Abstract() == Transport.Submit(cfg, old(Abstract()), id, kind, line, serial) && Tabled()
    {
      hide Routes.RoutesOk, Transport.ClearPending;
      if child.None? || closed || !line.encodable || line.bytes > cfg.frameLimitBytes {
        ClearPending(id, false, Transport.Broken(false));
        return;
      }
      var admitted := writes.Admit(cfg.writes, WriteQueue.Admission(id, kind, serial, line.bytes, child.value, false));
      if !admitted {
        ClearPending(id, false, Transport.Broken(false));
      }
    }

    method Issue(id: RequestId, slot: bool)
      requires Routes.IsWaiting(routes.Table(), id) && child.Some?
      requires Routes.RoutesOk(Routes.Launch(routes.Table(), id, serials, child.value, slot))
      modifies this, routes, writes, late
      ensures Abstract() == Transport.Issue(cfg, old(Abstract()), id, slot)
    {
      hide Routes.RoutesOk, Transport.Submit;
      var kind := if id in routes.waitingRequests then Unary else Stream;
      var line := if id in routes.waitingRequests then routes.waitingRequests[id].line else routes.waitingStreams[id].line;
      var serial := serials;
      serials := serials + 1;
      routes.Launch(id, serial, child.value, slot);
      Submit(id, kind, line, serial);
    }

    // ----- handshake

    /** `start`, once it has found that a child is to be spawned. */
    method Start()
      modifies this, routes, late
      ensures Abstract() == Transport.Spawn(old(Abstract()))
    {
      child := Some(spawned);
      spawned := spawned + 1;
      handshakeState := Transport.Unknown;
      late.Forget();
      routes.Reset();
    }

    /** A hello or one of the legacy probes: its id is minted before it is checked. */
    method Probe(stage: Transport.Stage) returns (started: bool)
      requires Valid() && handshakeState == Transport.Unknown && !handshakePromise.Probing? && (child.Some? || closed)
      modifies this, routes, writes, late
      ensures (Abstract(), started) == Transport.Probe(cfg, old(Abstract()), stage)
    {
      hide TransportInvariant.StateOk, Transport.Submit, Transport.IsFreeId, Transport.HasCapacity;
      ghost var s := Abstract();
      handshakeGeneration := handshakeGeneration + 1;
      var id := Control(handshakeGeneration);
      var free := IsFreeId(id, true);
      var capacity := HasCapacity(true);
      if !free || !capacity {
        return false;
      }
      ProbeIsTabled(s, stage);
      IssueProbe(id, stage);
      return true;
    }

    lemma ProbeIsTabled(s: Transport.State, stage: Transport.Stage)
      requires Transport.ValidConfig(cfg) && TransportInvariant.StateOk(cfg, s)
      requires s.handshakeState == Transport.Unknown && !s.handshake.Probing? && (s.child.Some? || s.closed)
      requires Transport.IsFreeId(s.(handshakeGeneration := s.handshakeGeneration + 1), Transport.ControlId(s), true)
      requires Transport.HasCapacity(cfg, s.(handshakeGeneration := s.handshakeGeneration + 1), true)
      ensures s.child.Some?
      ensures Routes.RoutesOk(Routes.OpenControl(s.routes, Transport.ControlId(s), s.serials, s.child.value))
    {
      TransportInvariant.ProbedKeeps(cfg, s, stage);
    }

    method IssueProbe(id: RequestId, stage: Transport.Stage)
      requires child.Some?
      requires Routes.RoutesOk(Routes.OpenControl(routes.Table(), id, serials, child.value))
      modifies this, routes, writes, late
      ensures var s := old(Abstract());
        Abstract() == Transport.Submit(
          cfg,
          s.(routes := Routes.OpenControl(s.routes, id, s.serials, s.child.value),
             serials := s.serials + 1,
             handshake := Transport.Probing(id, stage)),
          id, Unary, Line(if stage == Transport.Hello then cfg.helloBytes else cfg.probeBytes, true), s.serials)
    {
      hide Routes.RoutesOk, Transport.Submit;
      var serial := serials;
      serials := serials + 1;
      handshakePromise := Transport.Probing(id, stage);
      routes.ReserveControl(id, serial, child.value);
      Submit(id, Unary, Line(if stage == Transport.Hello then cfg.helloBytes else cfg.probeBytes, true), serial);
    }

    method EnsureHandshake() returns (v: Transport.Verdict)
      requires Valid()
      modifies this, routes, writes, late
      ensures (Abstract(), v) == Transport.EnsureHandshake(cfg, old(Abstract())) && Valid()
    {
      hide TransportInvariant.StateOk, Transport.Probe;
      TransportInvariant.EnsureHandshakeKeeps(cfg, Abstract());
      if closed {
        return Transport.Rejected;
      }
      if Transport.IsWorking(handshakeState) {
        return Transport.Resolved;
      }
      if handshakeState == Transport.Blocked {
        return Transport.Rejected;
      }
      if !handshakePromise.NoHandshake? {
        return Transport.Awaited;
      }
      if writes.recycleBlockedByWriteTeardown {
        return Transport.Rejected;
      }
      if child.None? {
        TransportInvariant.SpawnStateKeeps(cfg, Abstract());
        Start();
      }
      var started := Probe(Transport.Hello);
      return if started then Transport.Awaited else Transport.Rejected;
    }

    method AfterEnsure(v: Transport.Verdict, id: RequestId)
      requires Tabled() && Routes.IsWaiting(routes.Table(), id)
      modifies routes
      ensures Abstract() == Transport.AfterEnsure(old(Abstract()), v, id)
    {
      hide Routes.RoutesOk, Routes.SetPhase;
      match v
      case Resolved => routes.SetPhase(id, Released(true));
      case Rejected => RejectWaiting(id, false);
      case Awaited => routes.SetPhase(id, AwaitingHandshake);
    }

    method Succeed(h: Transport.HandshakeState)
      requires Tabled()
      modifies this, routes, writes, late
      ensures Abstract() == Transport.Succeed(old(Abstract()), h)
    {
      hide Routes.RoutesOk, Routes.ReleaseWaiters, Transport.MaybeRecycle;
      Routes.ReleaseWaitersKeeps(routes.Table(), true);
      handshakeState := h;
      handshakePromise := Transport.NoHandshake;
      routes.ReleaseWaiters(true);
      if child.Some? {
        history := history.(negotiated := history.negotiated + {child.value});
      }
      MaybeRecycleQuarantined();
    }

    method GiveUp()
      requires Tabled()
      modifies this, routes, writes, late
      ensures Abstract() == Transport.GiveUp(old(Abstract()))
    {
      hide Routes.RoutesOk, Routes.ReleaseWaiters, Transport.MaybeRecycle;
      Routes.ReleaseWaitersKeeps(routes.Table(), false);
      handshakeState := Transport.Unknown;
      handshakePromise := Transport.NoHandshake;
      routes.ReleaseWaiters(false);
      MaybeRecycleQuarantined();
    }

    method Block()
      requires Tabled()
      modifies this, routes, writes, late
      ensures Abstract() == Transport.Block(old(Abstract()))
    {
      hide Routes.RoutesOk, Transport.Terminate, Transport.MaybeRecycle;
      Terminate();
      handshakeState := Transport.Blocked;
      handshakePromise := Transport.NoHandshake;
      MaybeRecycleQuarantined();
    }

    method NextProbe(stage: Transport.Stage)
      requires Valid() && handshakePromise.Answered?
      modifies this, routes, writes, late
      ensures Abstract() == Transport.NextProbe(cfg, old(Abstract()), stage)
    {
      TransportInvariant.ProbeKeeps(cfg, Abstract(), stage);
      hide TransportInvariant.StateOk, Transport.Probe, Transport.GiveUp;
      var started := Probe(stage);
      if !started {
        StateIsTabled();
        GiveUp();
      }
    }

    lemma StateIsTabled()
      requires TransportInvariant.StateOk(cfg, Abstract())
      ensures Tabled()
    {
    }

    // ----- one part of the state at a time

    method OpenRoute(kind: Kind, id: RequestId, line: Line)
      modifies routes
      ensures Abstract() == old(Abstract()).(routes := Routes.Open(old(routes.Table()), kind, id, line))
    {
      hide Routes.Open;
      routes.ReserveWaiting(kind, id, line);
    }

    method AcquireSlot(id: RequestId)
      requires Routes.IsWaiting(routes.Table(), id)
      modifies routes
      ensures Abstract() == old(Abstract()).(routes := Routes.AcquireSlot(old(routes.Table()), id))
    {
      hide Routes.AcquireSlot;
      routes.AcquireSlot(id);
    }

    method SkipSlot()
      requires routes.legacyTail != []
      modifies routes
      ensures Abstract() == old(Abstract()).(routes := Routes.SkipSlot(old(routes.Table())))
    {
      hide Routes.SkipSlot;
      routes.SkipSlot();
    }

    method ReleaseWrite(retired: bool)
      requires WriteQueue.Chain(writes.Queue(), retired) != []
      modifies writes
      ensures Abstract() == old(Abstract()).(writes := WriteQueue.Release(old(writes.Queue()), retired))
    {
      hide WriteQueue.Release;
      writes.ReleaseWrite(retired);
    }

    /** The line is handed to stdin. */
    method StartWrite(retired: bool, a: WriteQueue.Admission)
      requires WriteQueue.Chain(writes.Queue(), retired) != []
      modifies this`history, writes
      ensures Abstract() == old(Abstract()).(
        writes := WriteQueue.MarkStarted(old(writes.Queue()), retired),
        callerWrites := if a.id.Caller? then old(history.callerWrites) + {a.child} else old(history.callerWrites))
    {
      hide WriteQueue.MarkStarted;
      writes.Start(retired);
      if a.id.Caller? {
        history := history.(callerWrites := history.callerWrites + {a.child});
      }
    }

    /** The second half of `consumeTombstoneResponse` and `consumeTombstoneEvent`. */
    method DropTombstone(id: RequestId)
      modifies late`tombstones
      ensures Abstract() == old(Abstract()).(tombstones := old(late.tombstones) - {id})
    {
      late.tombstones := late.tombstones - {id};
    }

    method FinishRetiredTail()
      requires writes.retiredWriteTail == Some([])
      modifies writes
      ensures Abstract() == old(Abstract()).(writes := WriteQueue.FinishRetired(old(writes.Queue())))
    {
      hide WriteQueue.FinishRetired;
      writes.FinishRetired();
    }

    /** A caller whose turn has come is issued, or told why not; `slot` says whether it
        has been granted the slot. A stream is promoted only now. */
    method IssueOrReject(id: RequestId, slot: bool)
      requires Tabled() && Routes.IsWaiting(routes.Table(), id)
      requires child.Some? ==> Routes.RoutesOk(Routes.Launch(routes.Table(), id, serials, child.value, slot))
      modifies this, routes, writes, late
      ensures var s := old(Abstract());
        Abstract() == if (id in s.routes.waitingRequests || Transport.CanPromote(cfg, s, id)) && Transport.CanIssue(s)
                      then Transport.Issue(cfg, s, id, slot) else Transport.RejectWaiting(s, id, slot)
    {
      hide Routes.RoutesOk, Transport.CanPromote, Transport.Issue, Transport.RejectWaiting;
      var promoted := true;
      if id !in routes.waitingRequests {
        promoted := CanPromote(id);
      }
      var can := CanIssue();
      if promoted && can {
        Issue(id, slot);
      } else {
        RejectWaiting(id, slot);
      }
    }

    // ----- the entry points: one method per step of the protocol

    lemma DeadlineKeeps(id: RequestId)
      requires Valid() && Routes.IsPending(routes.Table(), id)
      ensures TransportInvariant.StateOk(cfg, Transport.Deadline(cfg, Abstract(), id))
    {
      TransportInvariant.ClearThenTerminateKeeps(cfg, Abstract(), id, Transport.Broken(false));
    }

    method Request(id: RequestId, line: Line)
      requires Valid()
      modifies this, routes, writes, late
      ensures Abstract() == Transport.Request(cfg, old(Abstract()), id, line) && Valid()
    {
      TransportInvariant.RequestKeeps(cfg, Abstract(), id, line);
      StateIsTabled();
      hide TransportInvariant.StateOk, Routes.RoutesOk;
      hide Transport.IsFreeId, Transport.HasCapacity, Transport.EnsureHandshake, Transport.AfterEnsure, Routes.Open;
      var free := IsFreeId(id, false);
      var capacity := HasCapacity(false);
      if free && capacity {
        TransportInvariant.OpenStateKeeps(cfg, Abstract(), Unary, id, line);
        OpenRoute(Unary, id, line);
        var v := EnsureHandshake();
        if id in routes.waitingRequests || id in routes.waitingStreams {
          StateIsTabled();
          AfterEnsure(v, id);
        }
      }
    }

    /** The synchronous half of `stream`; its handshake is left to a microtask. */
    method OpenStream(id: RequestId, line: Line)
      requires Valid()
      modifies this, routes, writes, late
      ensures Abstract() == Transport.OpenStream(cfg, old(Abstract()), id, line) && Valid()
    {
      TransportInvariant.OpenStreamKeeps(cfg, Abstract(), id, line);
      StateIsTabled();
      hide TransportInvariant.StateOk, Routes.RoutesOk;
      hide Transport.IsFreeId, Transport.HasCapacity, Routes.Open;
      var free := IsFreeId(id, false);
      var capacity := HasCapacity(false);
      if free && capacity {
        OpenRoute(Stream, id, line);
      }
    }

    method StreamHandshake(id: RequestId)
      requires Valid() && id in routes.waitingStreams && routes.waitingStreams[id].phase == Deferred
      modifies this, routes, writes, late
      ensures Abstract() == Transport.StreamHandshake(cfg, old(Abstract()), id) && Valid()
    {
      TransportInvariant.StreamHandshakeKeeps(cfg, Abstract(), id);
      StateIsTabled();
      hide TransportInvariant.StateOk, Routes.RoutesOk;
      hide Transport.EnsureHandshake, Transport.AfterEnsure;
      var v := EnsureHandshake();
      if id in routes.waitingRequests || id in routes.waitingStreams {
        StateIsTabled();
        AfterEnsure(v, id);
      }
    }

    /** A caller goes on after the handshake. */
    method Resume(id: RequestId)
      requires Valid() && Routes.IsWaiting(routes.Table(), id) && Routes.WaitingOf(routes.Table(), id).phase.Released?
      modifies this, routes, writes, late
      ensures Abstract() == Transport.Resume(cfg, old(Abstract()), id) && Valid()
    {
      TransportInvariant.ResumeKeeps(cfg, Abstract(), id);
      StateIsTabled();
      hide TransportInvariant.StateOk, Routes.RoutesOk;
      hide Transport.CanPromote, Transport.CanIssue, Transport.Issue, Transport.RejectWaiting, Routes.AcquireSlot;
      var unary := id in routes.waitingRequests;
      var phase := if unary then routes.waitingRequests[id].phase else routes.waitingStreams[id].phase;
      if !phase.ok {
        RejectWaiting(id, false);
        return;
      }
      if unary {
        var promoted := CanPromote(id);
        if !promoted {
          RejectWaiting(id, false);
          return;
        }
      }
      if Transport.IsSingleFlight(handshakeState) {
        AcquireSlot(id);
        return;
      }
      if child.Some? {
        ResumedIsTabled(id);
      }
      IssueOrReject(id, false);
    }

    lemma ResumedIsTabled(id: RequestId)
      requires Valid() && child.Some?
      requires Routes.IsWaiting(routes.Table(), id) && Routes.WaitingOf(routes.Table(), id).phase.Released?
      ensures Routes.RoutesOk(Routes.Launch(routes.Table(), id, serials, child.value, false))
    {
      TransportInvariant.WaitingFacts(Abstract(), id);
      Routes.LaunchKeeps(routes.Table(), id, serials, child.value, false);
    }

    lemma GrantedIsTabled(id: RequestId)
      requires Tabled() && Routes.SlotWanted(routes.Table()) && routes.Table().calls[routes.Table().slots[0]] == id
      requires Routes.IsWaiting(routes.Table(), id) && child.Some?
      ensures Routes.RoutesOk(Routes.Launch(routes.Table(), id, serials, child.value, true))
    {
      Routes.LaunchKeeps(routes.Table(), id, serials, child.value, true);
    }

    /** The head of the slot chain is told that the slot is free. */
    method Grant()
      requires Valid() && routes.legacyTail != [] && !Routes.SlotHeld(routes.Table())
      modifies this, routes, writes, late
      ensures Abstract() == Transport.Grant(cfg, old(Abstract())) && Valid()
    {
      TransportInvariant.GrantKeeps(cfg, Abstract());
      StateIsTabled();
      hide TransportInvariant.StateOk, Routes.RoutesOk;
      hide Transport.CanPromote, Transport.CanIssue, Transport.Issue, Transport.RejectWaiting, Routes.ViewOf;
      var id, wanted := routes.Head();
      if !wanted {
        SkipSlot();
        return;
      }
      if child.Some? {
        GrantedIsTabled(id);
      }
      IssueOrReject(id, true);
    }

    /** The reactions chained to the hello and to the legacy probes. */
    method ContinueHandshake()
      requires Valid() && (handshakePromise.Answered? || handshakePromise.Broken?)
      modifies this, routes, writes, late
      ensures Abstract() == Transport.ContinueHandshake(cfg, old(Abstract())) && Valid()
    {
      TransportInvariant.ContinueKeeps(cfg, Abstract());
      StateIsTabled();
      hide TransportInvariant.StateOk, Routes.RoutesOk;
      hide Transport.Succeed, Transport.Block, Transport.GiveUp, Transport.NextProbe;
      match handshakePromise
      case Answered(stage, Result(negotiated, multiplexed, compatible)) =>
        match stage {
          case Hello =>
            if negotiated {
              Succeed(if multiplexed then Transport.Ready else Transport.SingleFlight);
            } else {
              Block();
            }
          case LegacyVersion =>
            NextProbe(Transport.LegacyCapabilities(compatible));
          case LegacyCapabilities(versionOk) =>
            if versionOk && compatible {
              Succeed(Transport.Legacy);
            } else {
              Block();
            }
        }
      case Answered(stage, Failure(code)) =>
        if stage == Transport.Hello && code == UnknownCommand {
          NextProbe(Transport.LegacyVersion);
        } else if stage == Transport.Hello && code == OtherFailure {
          GiveUp();
        } else {
          Block();
        }
      case Broken(rejected) =>
        if rejected {
          Block();
        } else {
          GiveUp();
        }
    }

    method Cancel(id: RequestId, rejection: bool)
      requires Valid()
      modifies this, routes, writes, late
      ensures Abstract() == Transport.Cancel(cfg, old(Abstract()), id, rejection) && Valid()
    {
      TransportInvariant.CancelKeeps(cfg, Abstract(), id, rejection);
      StateIsTabled();
      hide TransportInvariant.StateOk, Routes.RoutesOk;
      hide Transport.ClearPending, Transport.Terminate, Transport.HasStartedWrite, Transport.RejectWaiting;
      if id in routes.waitingRequests || id in routes.waitingStreams {
        RejectWaiting(id, false);
      } else if id in routes.pendingResponses || id in routes.pendingStreams {
        GiveUpOn(id, Transport.Broken(rejection), false);
      }
    }

    method Close()
      requires Valid()
      modifies this, routes, writes, late
      ensures Abstract() == Transport.Close(old(Abstract())) && Valid()
    {
      TransportInvariant.CloseKeeps(cfg, Abstract());
      StateIsTabled();
      hide TransportInvariant.StateOk, Routes.RoutesOk;
      hide Transport.Terminate;
      closed := true;
      Terminate();
    }

    /** The timer of `createDeadline`. */
    method Deadline(id: RequestId)
      requires Valid() && Routes.IsPending(routes.Table(), id) && !Transport.MicrotaskDue(Abstract())
      modifies this, routes, writes, late
      ensures Abstract() == Transport.Deadline(cfg, old(Abstract()), id) && Valid()
    {
      DeadlineKeeps(id);
      StateIsTabled();
      hide TransportInvariant.StateOk, Routes.RoutesOk;
      hide Transport.ClearPending, Transport.Terminate, Transport.HasStartedWrite;
      var slot := if id in routes.pendingResponses then routes.pendingResponses[id].slot else routes.pendingStreams[id].slot;
      GiveUpOn(id, Transport.Broken(false), id.Control? || slot);
    }

    method WriteRejected(a: WriteQueue.Admission, tombstone: bool)
      requires Tabled()
      modifies this, routes, writes, late
      ensures Abstract() == Transport.WriteRejected(cfg, old(Abstract()), a, tombstone)
    {
      hide Routes.RoutesOk, Transport.ClearPending;
      if a.kind == Unary && a.id in routes.pendingResponses {
        ClearPending(a.id, tombstone, Transport.Broken(false));
      } else if a.kind == Stream && a.id in routes.pendingStreams {
        ClearPending(a.id, tombstone, Transport.Broken(false));
      }
    }

    /** The next link of a write chain runs. */
    method BeginWrite(retired: bool)
      requires Valid() && WriteQueue.Chain(writes.Queue(), retired) != [] && !WriteQueue.Chain(writes.Queue(), retired)[0].started
      modifies this, routes, writes, late
      ensures Abstract() == Transport.BeginWrite(cfg, old(Abstract()), retired) && Valid()
    {
      TransportInvariant.BeginWriteKeeps(cfg, Abstract(), retired);
      StateIsTabled();
      hide TransportInvariant.StateOk, Routes.RoutesOk;
      hide Transport.WriteRejected, WriteQueue.Release, WriteQueue.MarkStarted, Transport.CanIssue;
      var a := if retired then writes.retiredWriteTail.value[0] else writes.writeTail[0];
      var can := CanIssue();
      if (a.id.Control? || can) && child == Some(a.child) && (a.id in routes.pendingResponses || a.id in routes.pendingStreams) {
        StartWrite(retired, a);
      } else {
        var unsent := a.id.Control? || closed || late.protocolQuarantined || handshakeState != Transport.Blocked;
        ReleaseWrite(retired);
        WriteRejected(a, !unsent);
      }
    }

    /** The callback of `stdin.write`. */
    method EndWrite(retired: bool, ok: bool)
      requires Valid() && WriteQueue.Chain(writes.Queue(), retired) != [] && WriteQueue.Chain(writes.Queue(), retired)[0].started
      requires !Transport.MicrotaskDue(Abstract())
      modifies this, routes, writes, late
      ensures Abstract() == Transport.EndWrite(cfg, old(Abstract()), retired, ok) && Valid()
    {
      TransportInvariant.EndWriteKeeps(cfg, Abstract(), retired, ok);
      StateIsTabled();
      hide TransportInvariant.StateOk, Routes.RoutesOk;
      hide Transport.WriteRejected, WriteQueue.Release;
      var a := if retired then writes.retiredWriteTail.value[0] else writes.writeTail[0];
      ReleaseWrite(retired);
      if !ok {
        WriteRejected(a, true);
      }
    }

    method FinishRetired()
      requires Valid() && writes.retiredWriteTail == Some([])
      modifies this, routes, writes, late
      ensures Abstract() == old(Abstract()).(writes := WriteQueue.FinishRetired(old(Abstract()).writes)) && Valid()
    {
      TransportInvariant.FinishRetiredStateKeeps(cfg, Abstract());
      StateIsTabled();
      hide TransportInvariant.StateOk, Routes.RoutesOk;
      hide WriteQueue.FinishRetired;
      FinishRetiredTail();
    }

    /** `discardLateOrQuarantine`, for an id that has no tombstone. */
    method Quarantine(id: RequestId)
      requires Tabled()
      modifies this, routes, writes, late
      ensures Abstract() == Transport.Quarantine(cfg, old(Abstract()), id)
    {
      hide Routes.RoutesOk, Transport.Terminate, Transport.MaybeRecycle;
      if id in late.quarantinedRequestIds {
        return;
      }
      if |late.quarantinedRequestIds| >= cfg.quarantineLimit {
        Terminate();
        return;
      }
      late.quarantinedRequestIds := late.quarantinedRequestIds + {id};
      late.protocolQuarantined := true;
      MaybeRecycleQuarantined();
    }

    ghost method Deliver(id: RequestId, serial: nat)
      requires Routes.IsPending(routes.Table(), id) && child.Some?
      modifies this`history
      ensures Abstract() == Transport.Deliver(old(Abstract()), id, serial)
    {
      var p := Routes.PendingOf(routes.Table(), id);
      history := history.(deliveries := history.deliveries + {Transport.Delivery(p.serial, p.child, serial, child.value)});
    }

    method HandleResponse(id: RequestId, reply: Reply, serial: nat)
      requires Valid() && child.Some? && !Transport.MicrotaskDue(Abstract())
      modifies this, routes, writes, late
      ensures Abstract() == Transport.HandleResponse(cfg, old(Abstract()), id, reply, serial) && Valid()
    {
      TransportInvariant.HandleResponseKeeps(cfg, Abstract(), id, reply, serial);
      StateIsTabled();
      hide TransportInvariant.StateOk, Routes.RoutesOk;
      hide Transport.ClearPending, Transport.Terminate, Transport.Quarantine, Transport.Deliver;
      if id in routes.pendingResponses {
        var stage := if handshakePromise.Probing? then handshakePromise.stage else Transport.Hello;
        Deliver(id, serial);
        ClearPending(id, false, Transport.Answered(stage, reply));
      } else if id in routes.pendingStreams {
        Terminate();
      } else if id in late.tombstones {
        if late.tombstones[id].kind == Unary {
          DropTombstone(id);
        } else {
          Terminate();
        }
      } else {
        Quarantine(id);
      }
    }

    method HandleEvent(id: RequestId, t: EventType, accepted: bool, serial: nat)
      requires Valid() && child.Some? && !Transport.MicrotaskDue(Abstract())
      modifies this, routes, writes, late
      ensures Abstract() == Transport.HandleEvent(cfg, old(Abstract()), id, t, accepted, serial) && Valid()
    {
      TransportInvariant.HandleEventKeeps(cfg, Abstract(), id, t, accepted, serial);
      StateIsTabled();
      hide TransportInvariant.StateOk, Routes.RoutesOk;
      hide Transport.ClearPending, Transport.Terminate, Transport.Quarantine, Transport.Deliver;
      if id in routes.pendingStreams {
        if !accepted {
          ClearPending(id, true, Transport.Broken(false));
          return;
        }
        Deliver(id, serial);
        if IsTerminal(t) {
          ClearPending(id, false, Transport.Broken(false));
        }
      } else if id in routes.pendingResponses {
        Terminate();
      } else if id in late.tombstones {
        if late.tombstones[id].kind == Unary {
          Terminate();
        } else if IsTerminal(t) {
          DropTombstone(id);
        }
      } else {
        Quarantine(id);
      }
    }

    /** A framing error, an expired tombstone, or the end of the child itself. */
    method ChildFailed()
      requires Valid() && child.Some? && !Transport.MicrotaskDue(Abstract())
      modifies this, routes, writes, late
      ensures Abstract() == Transport.Terminate(old(Abstract())) && Valid()
    {
      TransportInvariant.TerminateKeeps(cfg, Abstract());
      StateIsTabled();
      hide TransportInvariant.StateOk, Routes.RoutesOk;
      hide Transport.Terminate;
      Terminate();
    }

    method QuarantineTimer()
      requires Valid() && late.protocolQuarantined && !Transport.MicrotaskDue(Abstract())
      modifies this, routes, writes, late
      ensures Abstract() == Transport.RecycleQuarantined(old(Abstract())) && Valid()
    {
      TransportInvariant.RecycleKeeps(cfg, Abstract());
      StateIsTabled();
      hide TransportInvariant.StateOk, Routes.RoutesOk;
      hide Transport.RecycleQuarantined;
      RecycleQuarantinedTransport();
    }
  }
}
