/**
 What holds in every reachable state of the transport, whatever the backend sends and
 however calls, timers, stdin callbacks, frames and child exits interleave.
*/
module TransportInvariant {
  import opened Ledger
  import opened Routes
  import opened Transport
  import opened Wire
  import opened WriteQueue

  /** One live route against the rest of the state. Before negotiation has succeeded only
      the transport's own probe is pending; in single-flight mode a caller is pending only
      with the slot; a pending route belongs to the current child. */
  predicate LiveOk(s: State, id: RequestId, st: Ledger.Status) {
    && !s.closed
    && id !in s.tombstones
    && (id.Control? ==>
          st.Pends? && s.handshake.Probing? && s.handshake.id == id && id.number <= s.handshakeGeneration)
    && (|| IsWorking(s.handshakeState)
        || id.Control?
        || (st.Waits? && st.phase != AwaitingSlot && st.phase != Released(true)))
    && (st.Pends? ==> s.child == Some(st.child))
    && (st.Pends? && id.Caller? ==> (st.slot <==> IsSingleFlight(s.handshakeState)))
    && (st.Waits? && st.phase == AwaitingSlot ==> IsSingleFlight(s.handshakeState))
  }

  ghost predicate LiveRoutesOk(s: State, v: View) {
    forall id :: id in v ==> LiveOk(s, id, v[id])
  }

  ghost predicate AdmissionOk(cfg: Config, s: State) {
    && Admitted(s.routes) <= cfg.maxInFlight
    && (s.handshakeState == Unknown ==> Callers(s.routes) <= cfg.maxInFlight - 1)
    && |s.tombstones| <= cfg.tombstoneLimit
    && |s.quarantinedRequestIds| <= cfg.quarantineLimit
  }

  ghost predicate HandshakeOk(s: State) {
    && (!s.handshake.NoHandshake? ==> s.handshakeState == Unknown)
    && (s.handshake.Probing? ==> s.handshake.id in ViewOf(s.routes) && s.handshake.id.Control?)
    && (s.handshake.Answered? ==> s.child.Some? || s.closed)
    && (s.handshakeState == Blocked ==> s.child.None?)
    && (IsWorking(s.handshakeState) ==> s.child.Some? || s.closed)
    && (s.closed ==> s.child.None?)
    && (s.child.None? ==> s.tombstones == map[] && s.quarantinedRequestIds == {})
    && (s.protocolQuarantined <==> s.quarantinedRequestIds != {})
    && (forall id :: id in s.tombstones && id.Control? ==> id.number <= s.handshakeGeneration)
  }

  ghost predicate NegotiationOk(s: State) {
    && s.callerWrites <= s.negotiated
    && (IsWorking(s.handshakeState) && s.child.Some? ==> s.child.value in s.negotiated)
    && (forall g :: g in s.negotiated ==> g < s.spawned)
  }

  ghost predicate StateOk(cfg: Config, s: State) {
    && RoutesOk(s.routes)
    && WritesOk(s.writes, cfg.writes, s.child, s.spawned, s.serials)
    && LiveRoutesOk(s, ViewOf(s.routes))
    && AdmissionOk(cfg, s)
    && HandshakeOk(s)
    && NegotiationOk(s)
  }

  lemma InitialOk(cfg: Config)
    requires ValidConfig(cfg)
    ensures StateOk(cfg, INITIAL)
  {
    assert RoutesOk(NO_ROUTES) by {
      forall id ensures Fits(NO_ROUTES, map[], id) { }
      FittingView(NO_ROUTES, map[]);
    }
    assert WritesOk(NO_WRITES, cfg.writes, None, 0, 0);
  }

  // ----- teardown

  lemma TerminateKeeps(cfg: Config, s: State)
    requires ValidConfig(cfg) && StateOk(cfg, s)
    requires s.handshake.Answered? ==> s.closed
    ensures StateOk(cfg, Terminate(s))
    ensures Terminate(s).child.None? && ViewOf(Terminate(s).routes) == map[]
    ensures Terminate(s).handshakeState == if s.child.Some? then Unknown else s.handshakeState
  {
    FailAllKeeps(s.routes);
    if s.child.Some? {
      RetireKeeps(s.writes, cfg.writes, s.child.value, s.spawned, s.serials);
    }
  }

  lemma RecycleKeeps(cfg: Config, s: State)
    requires ValidConfig(cfg) && StateOk(cfg, s)
    requires s.handshake.Answered? ==> s.closed
    ensures StateOk(cfg, RecycleQuarantined(s)) && StateOk(cfg, MaybeRecycle(s))
  {
    if s.child.Some? {
      assert Terminate(s.(protocolQuarantined := false)) == Terminate(s);
      TerminateKeeps(cfg, s);
    }
  }

  predicate SameScalars(s: State, s1: State) {
    && s1.closed == s.closed && s1.tombstones == s.tombstones && s1.child == s.child
    && s1.handshakeState == s.handshakeState && s1.handshakeGeneration == s.handshakeGeneration
  }

  /** A step that touches one route leaves the others as they are. */
  lemma OthersStayOk(s: State, s1: State, v: View, id: RequestId)
    requires LiveRoutesOk(s, v) && SameScalars(s, s1)
    requires s1.handshake == s.handshake || (s.handshake.Probing? && s.handshake.id == id)
    ensures LiveRoutesOk(s1, v - {id})
  {
    forall x | x in v && x != id
      ensures LiveOk(s1, x, v[x])
    {
      assert LiveOk(s, x, v[x]);
    }
  }

  lemma OneChangesOk(s: State, s1: State, v: View, id: RequestId, st: Ledger.Status)
    requires LiveRoutesOk(s, v) && SameScalars(s, s1) && s1.handshake == s.handshake
    requires LiveOk(s1, id, st)
    ensures LiveRoutesOk(s1, v[id := st])
  {
    OthersStayOk(s, s1, v, id);
  }

  // ----- one route leaves the tables

  function Detach(s: State, id: RequestId, after: Handshake): State
    requires IsPending(s.routes, id)
  {
    var probed := s.handshake.Probing? && s.handshake.id == id;
    s.(routes := DropPending(s.routes, id), handshake := if probed then after else s.handshake)
  }

  /** While any route is pending there is a child, and no handshake continuation is due
      except the one the pending probe itself will cause. */
  lemma PendingFacts(s: State, id: RequestId)
    requires Partitioned(s.routes) && LiveRoutesOk(s, ViewOf(s.routes)) && HandshakeOk(s)
    requires IsPending(s.routes, id)
    ensures id in ViewOf(s.routes) && LiveOk(s, id, ViewOf(s.routes)[id])
    ensures ViewOf(s.routes)[id] == Pends(PendingOf(s.routes, id).call, PendingOf(s.routes, id).slot, PendingOf(s.routes, id).child)
    ensures s.child.Some? && !s.closed
    ensures s.handshake.NoHandshake? || (s.handshake.Probing? && (s.handshake.id == id <==> id.Control?))
  {
    assert IdOk(s.routes, id);
  }

  lemma DetachKeeps(cfg: Config, s: State, id: RequestId, after: Handshake)
    requires ValidConfig(cfg) && StateOk(cfg, s) && IsPending(s.routes, id)
    requires after.Answered? || after.Broken?
    ensures StateOk(cfg, Detach(s, id, after))
    ensures ViewOf(Detach(s, id, after).routes) == ViewOf(s.routes) - {id}
  {
    var s1 := Detach(s, id, after);
    PendingFacts(s, id);
    DropPendingKeeps(s.routes, id);
    OthersStayOk(s, s1, ViewOf(s.routes), id);
    hide DropPending, RoutesOk, LiveRoutesOk, WritesOk, ViewOf, AdmissionOk, HandshakeOk, NegotiationOk;
    DetachRest(cfg, s, id, after);
  }

  lemma DetachRest(cfg: Config, s: State, id: RequestId, after: Handshake)
    requires IsPending(s.routes, id) && AdmissionOk(cfg, s) && HandshakeOk(s) && NegotiationOk(s)
    requires s.child.Some? && (after.Answered? || after.Broken?)
    requires var r := DropPending(s.routes, id);
      && ViewOf(r) == ViewOf(s.routes) - {id} && Admitted(r) == Admitted(s.routes) - 1 && Callers(r) <= Callers(s.routes)
    ensures var s1 := Detach(s, id, after); AdmissionOk(cfg, s1) && HandshakeOk(s1) && NegotiationOk(s1)
  {
    hide DropPending, ViewOf, Admitted, Callers;
  }

  lemma TombstonedKeeps(cfg: Config, s: State, id: RequestId, t: Tombstone)
    requires ValidConfig(cfg) && StateOk(cfg, s)
    requires id !in ViewOf(s.routes) && s.child.Some?
    requires id.Control? ==> id.number <= s.handshakeGeneration
    requires |s.tombstones| < cfg.tombstoneLimit || id in s.tombstones
    ensures StateOk(cfg, s.(tombstones := s.tombstones[id := t]))
  {
    var s1 := s.(tombstones := s.tombstones[id := t]);
    forall x | x in ViewOf(s.routes)
      ensures LiveOk(s1, x, ViewOf(s.routes)[x])
    {
      assert LiveOk(s, x, ViewOf(s.routes)[x]);
    }
  }

  lemma AddTombstoneKeeps(cfg: Config, s: State, id: RequestId, t: Tombstone)
    requires ValidConfig(cfg) && StateOk(cfg, s)
    requires id !in ViewOf(s.routes) && s.child.Some? && !s.handshake.Answered?
    requires id.Control? ==> id.number <= s.handshakeGeneration
    ensures StateOk(cfg, AddTombstone(cfg, s, id, t))
    ensures !AddTombstone(cfg, s, id, t).handshake.Answered?
  {
    hide StateOk, FailAll, Retire;
    if |s.tombstones| >= cfg.tombstoneLimit && id !in s.tombstones {
      TerminateKeeps(cfg, s);
    } else {
      TombstonedKeeps(cfg, s, id, t);
    }
  }

  lemma ClearPendingKeeps(cfg: Config, s: State, id: RequestId, tombstone: bool, after: Handshake)
    requires ValidConfig(cfg) && StateOk(cfg, s) && IsPending(s.routes, id)
    requires after.Broken? || (after.Answered? && !tombstone)
    ensures StateOk(cfg, ClearPending(cfg, s, id, tombstone, after))
  {
    var s1 := Detach(s, id, after);
    DetachKeeps(cfg, s, id, after);
    PendingFacts(s, id);
    var t := Tombstone(if id in s.routes.pendingResponses then Unary else Stream, PendingOf(s.routes, id).serial);
    AfterDetachKeeps(cfg, s1, id, tombstone, t);
  }

  lemma AfterDetachKeeps(cfg: Config, s: State, id: RequestId, tombstone: bool, t: Tombstone)
    requires ValidConfig(cfg) && StateOk(cfg, s)
    requires id !in ViewOf(s.routes) && s.child.Some? && (s.handshake.Answered? ==> !tombstone)
    requires id.Control? ==> id.number <= s.handshakeGeneration
    ensures StateOk(cfg, MaybeRecycle(if tombstone then AddTombstone(cfg, s, id, t) else s))
  {
    if tombstone {
      AddTombstoneKeeps(cfg, s, id, t);
      RecycleKeeps(cfg, AddTombstone(cfg, s, id, t));
    } else if s.handshake.NoHandshake? {
      RecycleKeeps(cfg, s);
    }
  }

  lemma RejectWaitingKeeps(cfg: Config, s: State, id: RequestId, granted: bool)
    requires ValidConfig(cfg) && StateOk(cfg, s) && IsWaiting(s.routes, id)
    ensures StateOk(cfg, RejectWaiting(s, id, granted))
  {
    var s1 := RejectWaiting(s, id, granted);
    DropWaitingKeeps(s.routes, id, granted);
    WaitingFacts(s, id);
    OthersStayOk(s, s1, ViewOf(s.routes), id);
  }

  lemma WaitingFacts(s: State, id: RequestId)
    requires Partitioned(s.routes) && LiveRoutesOk(s, ViewOf(s.routes))
    requires IsWaiting(s.routes, id)
    ensures id.Caller? && id in ViewOf(s.routes) && LiveOk(s, id, ViewOf(s.routes)[id])
    ensures ViewOf(s.routes)[id] == Waits(WaitingOf(s.routes, id).call, WaitingOf(s.routes, id).phase)
  {
    assert IdOk(s.routes, id);
  }

  lemma SetPhaseStateKeeps(cfg: Config, s: State, id: RequestId, phase: WaitPhase)
    requires ValidConfig(cfg) && StateOk(cfg, s) && IsWaiting(s.routes, id)
    requires WaitingOf(s.routes, id).phase != AwaitingSlot
    requires phase == AwaitingHandshake || phase == Released(false) || (phase == Released(true) && IsWorking(s.handshakeState))
    ensures StateOk(cfg, s.(routes := SetPhase(s.routes, id, phase)))
  {
    var s1 := s.(routes := SetPhase(s.routes, id, phase));
    SetPhaseKeeps(s.routes, id, phase);
    WaitingFacts(s, id);
    OneChangesOk(s, s1, ViewOf(s.routes), id, Waits(WaitingOf(s.routes, id).call, phase));
  }

  // ----- issuing

  lemma SubmitKeeps(cfg: Config, s: State, id: RequestId, kind: Kind, line: Line, serial: nat)
    requires ValidConfig(cfg) && StateOk(cfg, s) && IsPending(s.routes, id)
    requires s.serials == serial + 1
    requires WritesOk(s.writes, cfg.writes, s.child, s.spawned, serial)
    ensures StateOk(cfg, Submit(cfg, s, id, kind, line, serial))
  {
    hide StateOk, WritesOk, Charge, ClearPending;
    if CanWrite(cfg, s, line) {
      ChargedKeeps(cfg, s, line, Admission(id, kind, serial, line.bytes, s.child.value, false));
    } else {
      ClearPendingKeeps(cfg, s, id, false, Broken(false));
    }
  }

  lemma ChargedKeeps(cfg: Config, s: State, line: Line, a: Admission)
    requires ValidConfig(cfg) && StateOk(cfg, s) && CanWrite(cfg, s, line) && s.serials == a.serial + 1
    requires WritesOk(s.writes, cfg.writes, s.child, s.spawned, a.serial)
    requires a.bytes == line.bytes && s.child == Some(a.child) && !a.started
    ensures StateOk(cfg, s.(writes := Charge(s.writes, a)))
  {
    hide StateOk, WritesOk, Charge;
    ChargeKeeps(s.writes, cfg.writes, a.child, s.spawned, a);
    WritesChange(cfg, s, Charge(s.writes, a));
  }

  function Launched(s: State, id: RequestId, slot: bool): State
    requires IsWaiting(s.routes, id) && s.child.Some?
  {
    s.(routes := Launch(s.routes, id, s.serials, s.child.value, slot), serials := s.serials + 1)
  }

  lemma LaunchedRoutes(s: State, id: RequestId, slot: bool)
    requires RoutesOk(s.routes) && LiveRoutesOk(s, ViewOf(s.routes)) && IsWaiting(s.routes, id) && s.child.Some?
    requires IsWorking(s.handshakeState) && (slot <==> IsSingleFlight(s.handshakeState))
    requires if slot then SlotWanted(s.routes) && s.routes.calls[s.routes.slots[0]] == id
             else WaitingOf(s.routes, id).phase != AwaitingSlot
    ensures var s1 := Launched(s, id, slot);
      RoutesOk(s1.routes) && LiveRoutesOk(s1, ViewOf(s1.routes)) && Admitted(s1.routes) == Admitted(s.routes)
  {
    LaunchKeeps(s.routes, id, s.serials, s.child.value, slot);
    WaitingFacts(s, id);
    OneChangesOk(s, Launched(s, id, slot), ViewOf(s.routes), id, Pends(WaitingOf(s.routes, id).call, slot, s.child.value));
  }

  lemma LaunchedScalars(cfg: Config, s: State, id: RequestId, slot: bool)
    requires StateOk(cfg, s) && IsWaiting(s.routes, id) && s.child.Some?
    requires IsWorking(s.handshakeState) && Admitted(Launched(s, id, slot).routes) == Admitted(s.routes)
    ensures var s1 := Launched(s, id, slot);
      AdmissionOk(cfg, s1) && HandshakeOk(s1) && NegotiationOk(s1)
  {
    hide RoutesOk, WritesOk, LiveRoutesOk, Launch, ViewOf, Admitted;
  }

  lemma LaunchedKeeps(cfg: Config, s: State, id: RequestId, slot: bool)
    requires ValidConfig(cfg) && StateOk(cfg, s) && IsWaiting(s.routes, id) && s.child.Some?
    requires IsWorking(s.handshakeState) && (slot <==> IsSingleFlight(s.handshakeState))
    requires if slot then SlotWanted(s.routes) && s.routes.calls[s.routes.slots[0]] == id
             else WaitingOf(s.routes, id).phase != AwaitingSlot
    ensures StateOk(cfg, Launched(s, id, slot))
  {
    LaunchedRoutes(s, id, slot);
    SerialsGrow(s.writes, cfg.writes, s.child, s.spawned, s.serials);
    LaunchedScalars(cfg, s, id, slot);
    hide RoutesOk, WritesOk, LiveRoutesOk, Launch, ViewOf, Admitted, AdmissionOk, HandshakeOk, NegotiationOk;
  }

  lemma IssueKeeps(cfg: Config, s: State, id: RequestId, slot: bool)
    requires ValidConfig(cfg) && StateOk(cfg, s) && IsWaiting(s.routes, id) && CanIssue(s)
    requires IsWorking(s.handshakeState) && (slot <==> IsSingleFlight(s.handshakeState))
    requires if slot then SlotWanted(s.routes) && s.routes.calls[s.routes.slots[0]] == id
             else WaitingOf(s.routes, id).phase != AwaitingSlot
    ensures StateOk(cfg, Issue(cfg, s, id, slot))
  {
    LaunchedKeeps(cfg, s, id, slot);
    var kind := if id in s.routes.waitingRequests then Unary else Stream;
    SubmitKeeps(cfg, Launched(s, id, slot), id, kind, WaitingOf(s.routes, id).line, s.serials);
  }

  /** A caller's slot is granted only from the head of the chain, and only once. */
  lemma GrantKeeps(cfg: Config, s: State)
    requires ValidConfig(cfg) && StateOk(cfg, s) && Enabled(s, GrantStep)
    ensures StateOk(cfg, Grant(cfg, s))
  {
    if !SlotWanted(s.routes) {
      SkipSlotKeeps(s.routes);
      var s1 := s.(routes := SkipSlot(s.routes));
      assert LiveRoutesOk(s1, ViewOf(s.routes));
    } else {
      var id := s.routes.calls[s.routes.slots[0]];
      WaitingFacts(s, id);
      if (id in s.routes.waitingRequests || CanPromote(cfg, s, id)) && CanIssue(s) {
        IssueKeeps(cfg, s, id, true);
      } else {
        RejectWaitingKeeps(cfg, s, id, true);
      }
    }
  }

  lemma AcquireSlotStateKeeps(cfg: Config, s: State, id: RequestId)
    requires ValidConfig(cfg) && StateOk(cfg, s) && IsWaiting(s.routes, id) && WaitingOf(s.routes, id).phase != AwaitingSlot
    requires IsSingleFlight(s.handshakeState)
    ensures StateOk(cfg, s.(routes := AcquireSlot(s.routes, id)))
  {
    var s1 := s.(routes := AcquireSlot(s.routes, id));
    AcquireSlotKeeps(s.routes, id);
    WaitingFacts(s, id);
    OneChangesOk(s, s1, ViewOf(s.routes), id, Waits(WaitingOf(s.routes, id).call, AwaitingSlot));
  }

  lemma ResumeKeeps(cfg: Config, s: State, id: RequestId)
    requires ValidConfig(cfg) && StateOk(cfg, s) && Enabled(s, ResumeStep(id))
    ensures StateOk(cfg, Resume(cfg, s, id))
  {
    var unary := id in s.routes.waitingRequests;
    WaitingFacts(s, id);
    if !WaitingOf(s.routes, id).phase.ok || (unary && !CanPromote(cfg, s, id)) {
      RejectWaitingKeeps(cfg, s, id, false);
    } else if IsSingleFlight(s.handshakeState) {
      AcquireSlotStateKeeps(cfg, s, id);
    } else if (unary || CanPromote(cfg, s, id)) && CanIssue(s) {
      IssueKeeps(cfg, s, id, false);
    } else {
      RejectWaitingKeeps(cfg, s, id, false);
    }
  }

  // ----- handshake

  lemma SpawnStateKeeps(cfg: Config, s: State)
    requires ValidConfig(cfg) && StateOk(cfg, s)
    requires s.child.None? && !s.closed && s.handshakeState == Unknown && s.handshake.NoHandshake? && !s.writes.recycleBlocked
    ensures StateOk(cfg, Spawn(s)) && ViewOf(Spawn(s).routes) == ViewOf(s.routes)
  {
    var s1 := Spawn(s);
    SpawnKeeps(s.writes, cfg.writes, s.spawned, s.serials);
    forall x
      ensures Fits(s1.routes, ViewOf(s.routes), x)
    {
      ViewFits(s.routes, x);
      assert x in ViewOf(s.routes) ==> LiveOk(s, x, ViewOf(s.routes)[x]);
    }
    FittingView(s1.routes, ViewOf(s.routes));
    assert s.routes.activeControlRequestIds == {} by {
      forall x ensures x !in s.routes.activeControlRequestIds {
        ViewFits(s.routes, x);
        assert x in ViewOf(s.routes) ==> LiveOk(s, x, ViewOf(s.routes)[x]);
      }
    }
    SpawnLedger(s);
    assert LiveRoutesOk(s1, ViewOf(s.routes));
  }

  /** No call that is still live can be in the slot chain a new child starts without. */
  lemma SpawnLedger(s: State)
    requires LedgerOk(ViewOf(s.routes), s.routes.calls, s.routes.settled, s.routes.slots)
    requires LiveRoutesOk(s, ViewOf(s.routes)) && s.handshakeState == Unknown && s.handshake.NoHandshake?
    ensures LedgerOk(ViewOf(s.routes), s.routes.calls, s.routes.settled, [])
  {
    forall x | x in ViewOf(s.routes)
      ensures ViewOf(s.routes)[x].Waits? && ViewOf(s.routes)[x].phase != AwaitingSlot
    {
      assert LiveOk(s, x, ViewOf(s.routes)[x]);
    }
  }

  /** The admission bound always leaves room for the hello and for each legacy probe. */
  lemma ProbeFits(cfg: Config, s: State)
    requires ValidConfig(cfg) && StateOk(cfg, s)
    requires s.handshakeState == Unknown && !s.handshake.Probing?
    ensures s.routes.activeControlRequestIds == {}
    ensures HasCapacity(cfg, s, true)
    ensures IsFreeId(s, ControlId(s), true) <==> !s.closed && !s.protocolQuarantined
  {
    forall x ensures x !in s.routes.activeControlRequestIds {
      ViewFits(s.routes, x);
      assert x in ViewOf(s.routes) ==> LiveOk(s, x, ViewOf(s.routes)[x]);
    }
    var id := ControlId(s);
    ViewFits(s.routes, id);
    assert id in ViewOf(s.routes) ==> LiveOk(s, id, ViewOf(s.routes)[id]);
  }

  function Probed(s: State, stage: Stage): State
    requires s.child.Some?
  {
    s.(handshakeGeneration := s.handshakeGeneration + 1,
       routes := OpenControl(s.routes, ControlId(s), s.serials, s.child.value),
       serials := s.serials + 1,
       handshake := Probing(ControlId(s), stage))
  }

  lemma ProbedKeeps(cfg: Config, s: State, stage: Stage)
    requires ValidConfig(cfg) && StateOk(cfg, s)
    requires s.handshakeState == Unknown && !s.handshake.Probing? && s.child.Some?
    requires IsFreeId(s, ControlId(s), true) && HasCapacity(cfg, s, true)
    ensures StateOk(cfg, Probed(s, stage))
  {
    var id, s1 := ControlId(s), Probed(s, stage);
    ViewFits(s.routes, id);
    OpenControlKeeps(s.routes, id, s.serials, s.child.value);
    SerialsGrow(s.writes, cfg.writes, s.child, s.spawned, s.serials);
    ProbedLive(s, stage);
  }

  lemma ProbedLive(s: State, stage: Stage)
    requires LiveRoutesOk(s, ViewOf(s.routes)) && s.child.Some? && !s.closed && !s.handshake.Probing?
    requires ControlId(s) !in s.tombstones
    ensures LiveRoutesOk(Probed(s, stage), ViewOf(s.routes)[ControlId(s) := Pends(|s.routes.calls|, false, s.child.value)])
  {
    forall x | x in ViewOf(s.routes)
      ensures x.Caller? && LiveOk(Probed(s, stage), x, ViewOf(s.routes)[x])
    {
      assert LiveOk(s, x, ViewOf(s.routes)[x]);
    }
  }

  /** Minting the id changes nothing the two checks look at. */
  lemma ProbeUnfolds(cfg: Config, s: State, stage: Stage)
    requires s.child.Some?
    ensures Probe(cfg, s, stage).0 ==
      if IsFreeId(s, ControlId(s), true) && HasCapacity(cfg, s, true)
      then Submit(cfg, Probed(s, stage), ControlId(s), Unary,
                  Line(if stage == Hello then cfg.helloBytes else cfg.probeBytes, true), s.serials)
      else s.(handshakeGeneration := s.handshakeGeneration + 1)
  {
    hide Submit, OpenControl;
  }

  lemma ClosedProbe(cfg: Config, s: State, stage: Stage)
    requires s.closed || s.protocolQuarantined
    ensures Probe(cfg, s, stage).0 == s.(handshakeGeneration := s.handshakeGeneration + 1)
  {
    hide Submit, OpenControl, HasCapacity;
  }

  lemma SubmitProbeKeeps(cfg: Config, s: State, stage: Stage, line: Line)
    requires ValidConfig(cfg) && StateOk(cfg, s)
    requires s.handshakeState == Unknown && !s.handshake.Probing? && s.child.Some?
    requires IsFreeId(s, ControlId(s), true) && HasCapacity(cfg, s, true)
    ensures StateOk(cfg, Submit(cfg, Probed(s, stage), ControlId(s), Unary, line, s.serials))
  {
    ProbedKeeps(cfg, s, stage);
    assert WritesOk(s.writes, cfg.writes, s.child, s.spawned, s.serials);
    hide StateOk, Submit, WritesOk, IsFreeId, HasCapacity;
    SubmitKeeps(cfg, Probed(s, stage), ControlId(s), Unary, line, s.serials);
  }

  lemma ProbeKeeps(cfg: Config, s: State, stage: Stage)
    requires ValidConfig(cfg) && StateOk(cfg, s)
    requires s.handshakeState == Unknown && !s.handshake.Probing? && (s.child.Some? || s.closed)
    ensures StateOk(cfg, Probe(cfg, s, stage).0)
  {
    hide StateOk, Submit, Probe, IsFreeId, HasCapacity, Probed;
    ProbeFits(cfg, s);
    if s.closed || s.protocolQuarantined {
      ClosedProbe(cfg, s, stage);
      MintedKeeps(cfg, s);
    } else {
      ProbeUnfolds(cfg, s, stage);
      SubmitProbeKeeps(cfg, s, stage, Line(if stage == Hello then cfg.helloBytes else cfg.probeBytes, true));
    }
  }

  lemma MintedKeeps(cfg: Config, s: State)
    requires ValidConfig(cfg) && StateOk(cfg, s)
    ensures StateOk(cfg, s.(handshakeGeneration := s.handshakeGeneration + 1))
  {
    var s1 := s.(handshakeGeneration := s.handshakeGeneration + 1);
    forall x | x in ViewOf(s.routes)
      ensures LiveOk(s1, x, ViewOf(s.routes)[x])
    {
      assert LiveOk(s, x, ViewOf(s.routes)[x]);
    }
  }

  /** Probing leaves every waiting caller where it was. */
  lemma ProbeSpares(cfg: Config, s: State, stage: Stage)
    requires s.handshake.NoHandshake? || MicrotaskDue(s)
    ensures var s1 := Probe(cfg, s, stage).0;
      && s1.routes.waitingRequests == s.routes.waitingRequests
      && s1.routes.waitingStreams == s.routes.waitingStreams
      && s1.handshakeState == s.handshakeState
      && (!Probe(cfg, s, stage).1 ==> s1.handshake == s.handshake)
  {
  }

  lemma EnsureHandshakeKeeps(cfg: Config, s: State)
    requires ValidConfig(cfg) && StateOk(cfg, s)
    ensures var (s1, v) := EnsureHandshake(cfg, s);
      && StateOk(cfg, s1)
      && s1.routes.waitingRequests == s.routes.waitingRequests
      && s1.routes.waitingStreams == s.routes.waitingStreams
      && (v == Resolved ==> IsWorking(s1.handshakeState))
  {
    hide StateOk, Probe, Spawn;
    if !s.closed && s.handshakeState == Unknown && s.handshake.NoHandshake? && !s.writes.recycleBlocked {
      if s.child.None? {
        SpawnStateKeeps(cfg, s);
        SpawnSpares(s);
      }
      var s0 := if s.child.None? then Spawn(s) else s;
      ProbeKeeps(cfg, s0, Hello);
      ProbeSpares(cfg, s0, Hello);
    }
  }

  lemma SpawnSpares(s: State)
    ensures var s1 := Spawn(s);
      && s1.routes.waitingRequests == s.routes.waitingRequests && s1.routes.waitingStreams == s.routes.waitingStreams
      && s1.child.Some? && s1.handshakeState == Unknown && s1.handshake == s.handshake
  {
  }

  lemma AfterEnsureKeeps(cfg: Config, s: State, v: Verdict, id: RequestId)
    requires ValidConfig(cfg) && StateOk(cfg, s) && IsWaiting(s.routes, id)
    requires WaitingOf(s.routes, id).phase != AwaitingSlot
    requires v == Resolved ==> IsWorking(s.handshakeState)
    ensures StateOk(cfg, AfterEnsure(s, v, id))
  {
    match v
    case Resolved => SetPhaseStateKeeps(cfg, s, id, Released(true));
    case Rejected => RejectWaitingKeeps(cfg, s, id, false);
    case Awaited => SetPhaseStateKeeps(cfg, s, id, AwaitingHandshake);
  }

  lemma OpenStateKeeps(cfg: Config, s: State, kind: Kind, id: RequestId, line: Line)
    requires ValidConfig(cfg) && StateOk(cfg, s)
    requires IsFreeId(s, id, false) && HasCapacity(cfg, s, false)
    ensures StateOk(cfg, s.(routes := Open(s.routes, kind, id, line)))
  {
    var s1 := s.(routes := Open(s.routes, kind, id, line));
    ViewFits(s.routes, id);
    OpenKeeps(s.routes, kind, id, line);
    OneChangesOk(s, s1, ViewOf(s.routes), id, Waits(|s.routes.calls|, if kind == Unary then AwaitingHandshake else Deferred));
    OpenBound(cfg, s, kind, id, line);
  }

  /** A caller admitted before negotiation leaves one route free for the transport. */
  lemma OpenBound(cfg: Config, s: State, kind: Kind, id: RequestId, line: Line)
    requires ValidConfig(cfg) && StateOk(cfg, s)
    requires IsFreeId(s, id, false) && HasCapacity(cfg, s, false)
    ensures AdmissionOk(cfg, s.(routes := Open(s.routes, kind, id, line)))
  {
    ViewFits(s.routes, id);
    OpenKeeps(s.routes, kind, id, line);
    if s.handshakeState == Unknown && s.routes.activeControlRequestIds != {} {
      assert |s.routes.activeControlRequestIds| >= 1;
    }
  }

  lemma RequestKeeps(cfg: Config, s: State, id: RequestId, line: Line)
    requires ValidConfig(cfg) && StateOk(cfg, s)
    ensures StateOk(cfg, Request(cfg, s, id, line))
  {
    if IsFreeId(s, id, false) && HasCapacity(cfg, s, false) {
      OpenStateKeeps(cfg, s, Unary, id, line);
      var s1 := s.(routes := Open(s.routes, Unary, id, line));
      EnsureHandshakeKeeps(cfg, s1);
      var (s2, v) := EnsureHandshake(cfg, s1);
      AfterEnsureKeeps(cfg, s2, v, id);
    }
  }

  lemma StreamHandshakeKeeps(cfg: Config, s: State, id: RequestId)
    requires ValidConfig(cfg) && StateOk(cfg, s) && Enabled(s, StreamHandshakeStep(id))
    ensures StateOk(cfg, StreamHandshake(cfg, s, id))
  {
    EnsureHandshakeKeeps(cfg, s);
    var (s1, v) := EnsureHandshake(cfg, s);
    assert IdOk(s.routes, id) && IdOk(s1.routes, id);
    AfterEnsureKeeps(cfg, s1, v, id);
  }

  lemma ReleasedLive(s: State, s1: State, v: View, ok: bool)
    requires LiveRoutesOk(s, v)
    requires s1.closed == s.closed && s1.tombstones == s.tombstones && s1.child == s.child
    requires s.handshakeState == Unknown && MicrotaskDue(s) && s1.handshake.NoHandshake?
    requires if ok then IsWorking(s1.handshakeState) else s1.handshakeState == Unknown
    ensures LiveRoutesOk(s1, ReleasedView(v, ok))
  {
    forall x | x in v
      ensures LiveOk(s1, x, ReleasedView(v, ok)[x])
    {
      assert LiveOk(s, x, v[x]);
    }
  }

  lemma GiveUpKeeps(cfg: Config, s: State)
    requires ValidConfig(cfg) && StateOk(cfg, s) && MicrotaskDue(s)
    ensures StateOk(cfg, GiveUp(s))
  {
    var s1 := s.(handshakeState := Unknown, handshake := NoHandshake, routes := ReleaseWaiters(s.routes, false));
    ReleaseWaitersKeeps(s.routes, false);
    ReleasedLive(s, s1, ViewOf(s.routes), false);
    RecycleKeeps(cfg, s1);
  }

  lemma SucceedKeeps(cfg: Config, s: State, h: HandshakeState)
    requires ValidConfig(cfg) && StateOk(cfg, s) && s.handshake.Answered? && IsWorking(h)
    ensures StateOk(cfg, Succeed(s, h))
  {
    var s1 := s.(
      handshakeState := h,
      handshake := NoHandshake,
      routes := ReleaseWaiters(s.routes, true),
      negotiated := if s.child.Some? then s.negotiated + {s.child.value} else s.negotiated);
    ReleaseWaitersKeeps(s.routes, true);
    ReleasedLive(s, s1, ViewOf(s.routes), true);
    assert AdmissionOk(cfg, s1) && HandshakeOk(s1) && NegotiationOk(s1);
    RecycleKeeps(cfg, s1);
  }

  lemma QuietKeeps(cfg: Config, s: State)
    requires ValidConfig(cfg) && StateOk(cfg, s) && MicrotaskDue(s)
    ensures StateOk(cfg, s.(handshake := NoHandshake))
  {
    var s0 := s.(handshake := NoHandshake);
    forall x | x in ViewOf(s.routes)
      ensures LiveOk(s0, x, ViewOf(s.routes)[x])
    {
      assert LiveOk(s, x, ViewOf(s.routes)[x]);
    }
  }

  lemma BlockedKeeps(cfg: Config, s: State)
    requires ValidConfig(cfg) && StateOk(cfg, s) && s.child.None? && ViewOf(s.routes) == map[] && s.handshake.NoHandshake?
    ensures StateOk(cfg, s.(handshakeState := Blocked))
    ensures !s.protocolQuarantined
  {
  }

  lemma BlockKeeps(cfg: Config, s: State)
    requires ValidConfig(cfg) && StateOk(cfg, s) && MicrotaskDue(s)
    ensures StateOk(cfg, Block(s)) && Block(s).handshakeState == Blocked
  {
    hide StateOk, FailAll, Retire;
    var s0 := s.(handshake := NoHandshake);
    QuietKeeps(cfg, s);
    TerminateKeeps(cfg, s0);
    BlockedKeeps(cfg, Terminate(s0));
    assert Terminate(s).(handshakeState := Blocked, handshake := NoHandshake) == Terminate(s0).(handshakeState := Blocked);
  }

  lemma NextProbeKeeps(cfg: Config, s: State, stage: Stage)
    requires ValidConfig(cfg) && StateOk(cfg, s) && s.handshake.Answered?
    ensures StateOk(cfg, NextProbe(cfg, s, stage))
  {
    ProbeKeeps(cfg, s, stage);
    ProbeSpares(cfg, s, stage);
    if !Probe(cfg, s, stage).1 {
      GiveUpKeeps(cfg, Probe(cfg, s, stage).0);
    }
  }

  lemma ContinueKeeps(cfg: Config, s: State)
    requires ValidConfig(cfg) && StateOk(cfg, s) && MicrotaskDue(s)
    ensures StateOk(cfg, ContinueHandshake(cfg, s))
  {
    hide StateOk, Succeed, GiveUp, Block, NextProbe;
    match s.handshake
    case Answered(stage, reply) =>
      SucceedKeeps(cfg, s, Ready);
      SucceedKeeps(cfg, s, SingleFlight);
      SucceedKeeps(cfg, s, Legacy);
      BlockKeeps(cfg, s);
      GiveUpKeeps(cfg, s);
      NextProbeKeeps(cfg, s, LegacyVersion);
      if reply.Result? {
        NextProbeKeeps(cfg, s, LegacyCapabilities(reply.compatible));
      }
    case Broken(rejected) =>
      BlockKeeps(cfg, s);
      GiveUpKeeps(cfg, s);
  }

  // ----- calls, timers, writes and frames

  /** No route is pending while the handshake continuation is due. */
  lemma PendingMeansQuiet(s: State, id: RequestId)
    requires Partitioned(s.routes) && LiveRoutesOk(s, ViewOf(s.routes)) && HandshakeOk(s)
    requires IsPending(s.routes, id)
    ensures !MicrotaskDue(s)
  {
    PendingFacts(s, id);
  }

  lemma ClearThenTerminateKeeps(cfg: Config, s: State, id: RequestId, after: Handshake)
    requires ValidConfig(cfg) && StateOk(cfg, s) && IsPending(s.routes, id) && after.Broken?
    ensures var s1 := ClearPending(cfg, s, id, true, after);
      StateOk(cfg, s1) && StateOk(cfg, Terminate(s1))
  {
    PendingMeansQuiet(s, id);
    ClearPendingKeeps(cfg, s, id, true, after);
    ClearedIsNotAnswered(cfg, s, id, after);
    TerminateKeeps(cfg, ClearPending(cfg, s, id, true, after));
  }

  lemma ClearedIsNotAnswered(cfg: Config, s: State, id: RequestId, after: Handshake)
    requires IsPending(s.routes, id) && after.Broken? && !MicrotaskDue(s)
    ensures !ClearPending(cfg, s, id, true, after).handshake.Answered?
  {
    hide FailAll, Retire, DropPending;
  }

  lemma CloseKeeps(cfg: Config, s: State)
    requires ValidConfig(cfg) && StateOk(cfg, s)
    ensures StateOk(cfg, Close(s))
  {
    if s.child.Some? {
      FailAllKeeps(s.routes);
      RetireKeeps(s.writes, cfg.writes, s.child.value, s.spawned, s.serials);
    } else {
      FailAllKeeps(s.routes);
    }
  }

  lemma WriteRejectedKeeps(cfg: Config, s: State, a: Admission, tombstone: bool)
    requires ValidConfig(cfg) && StateOk(cfg, s)
    ensures StateOk(cfg, WriteRejected(cfg, s, a, tombstone))
  {
    if (if a.kind == Unary then a.id in s.routes.pendingResponses else a.id in s.routes.pendingStreams) {
      ClearPendingKeeps(cfg, s, a.id, tombstone, Broken(false));
    }
  }

  lemma WritesChange(cfg: Config, s: State, w: Writes)
    requires ValidConfig(cfg) && StateOk(cfg, s)
    requires WritesOk(w, cfg.writes, s.child, s.spawned, s.serials)
    ensures StateOk(cfg, s.(writes := w))
  {
    assert LiveRoutesOk(s.(writes := w), ViewOf(s.routes)) by {
      forall x | x in ViewOf(s.routes)
        ensures LiveOk(s.(writes := w), x, ViewOf(s.routes)[x])
      {
        assert LiveOk(s, x, ViewOf(s.routes)[x]);
      }
    }
  }

  lemma ReleasedKeeps(cfg: Config, s: State, retired: bool)
    requires ValidConfig(cfg) && StateOk(cfg, s) && Chain(s.writes, retired) != []
    ensures StateOk(cfg, s.(writes := Release(s.writes, retired)))
  {
    ReleaseKeeps(s.writes, cfg.writes, s.child, s.spawned, s.serials, retired);
    WritesChange(cfg, s, Release(s.writes, retired));
  }

  lemma BeginWriteKeeps(cfg: Config, s: State, retired: bool)
    requires ValidConfig(cfg) && StateOk(cfg, s) && Enabled(s, BeginWriteStep(retired))
    ensures StateOk(cfg, BeginWrite(cfg, s, retired))
  {
    var a := Chain(s.writes, retired)[0];
    if MayStart(s, a) {
      BeginWriteStarts(cfg, s, retired);
    } else {
      hide StateOk, Release, ClearPending;
      ReleasedKeeps(cfg, s, retired);
      var unsent := a.id.Control? || s.closed || s.protocolQuarantined || s.handshakeState != Blocked;
      WriteRejectedKeeps(cfg, s.(writes := Release(s.writes, retired)), a, !unsent);
    }
  }

  /** A line reaches stdin only from the chain of the current child, and a caller's line
      only after that child's own negotiation succeeded. */
  lemma BeginWriteStarts(cfg: Config, s: State, retired: bool)
    requires ValidConfig(cfg) && StateOk(cfg, s) && Enabled(s, BeginWriteStep(retired))
    requires MayStart(s, Chain(s.writes, retired)[0])
    ensures !retired && s.child == Some(Chain(s.writes, retired)[0].child)
    ensures Chain(s.writes, retired)[0].id.Caller? ==> s.child.value in s.negotiated
    ensures StateOk(cfg, BeginWrite(cfg, s, retired))
  {
    var a := Chain(s.writes, retired)[0];
    PendingFacts(s, a.id);
    MarkStartedKeeps(s.writes, cfg.writes, s.child, s.spawned, s.serials);
    var w := MarkStarted(s.writes, false);
    WritesChange(cfg, s, w);
    var s1 := s.(writes := w);
    var s2 := s1.(callerWrites := if a.id.Caller? then s.callerWrites + {a.child} else s.callerWrites);
    assert LiveRoutesOk(s2, ViewOf(s1.routes)) by {
      forall x | x in ViewOf(s1.routes) ensures LiveOk(s2, x, ViewOf(s1.routes)[x]) {
        assert LiveOk(s1, x, ViewOf(s1.routes)[x]);
      }
    }
  }

  lemma EndWriteKeeps(cfg: Config, s: State, retired: bool, ok: bool)
    requires ValidConfig(cfg) && StateOk(cfg, s) && Enabled(s, EndWriteStep(retired, ok))
    ensures StateOk(cfg, EndWrite(cfg, s, retired, ok))
  {
    hide StateOk, Release, ClearPending;
    ReleasedKeeps(cfg, s, retired);
    WriteRejectedKeeps(cfg, s.(writes := Release(s.writes, retired)), Chain(s.writes, retired)[0], true);
  }

  lemma DeliverKeeps(cfg: Config, s: State, id: RequestId, serial: nat)
    requires ValidConfig(cfg) && StateOk(cfg, s) && IsPending(s.routes, id) && s.child.Some?
    ensures StateOk(cfg, Deliver(s, id, serial))
  {
    var s1 := Deliver(s, id, serial);
    assert LiveRoutesOk(s1, ViewOf(s.routes)) by {
      forall x | x in ViewOf(s.routes) ensures LiveOk(s1, x, ViewOf(s.routes)[x]) {
        assert LiveOk(s, x, ViewOf(s.routes)[x]);
      }
    }
  }

  lemma ForgetTombstoneKeeps(cfg: Config, s: State, id: RequestId)
    requires ValidConfig(cfg) && StateOk(cfg, s) && id in s.tombstones
    ensures StateOk(cfg, s.(tombstones := s.tombstones - {id}))
  {
    var s1 := s.(tombstones := s.tombstones - {id});
    assert s1.tombstones.Keys == s.tombstones.Keys - {id};
    assert |s1.tombstones| == |s1.tombstones.Keys|;
    assert LiveRoutesOk(s1, ViewOf(s.routes)) by {
      forall x | x in ViewOf(s.routes) ensures LiveOk(s1, x, ViewOf(s.routes)[x]) {
        assert LiveOk(s, x, ViewOf(s.routes)[x]);
      }
    }
  }

  lemma UnknownIdKeeps(cfg: Config, s: State, id: RequestId)
    requires ValidConfig(cfg) && StateOk(cfg, s) && s.child.Some? && id !in s.quarantinedRequestIds
    requires |s.quarantinedRequestIds| < cfg.quarantineLimit
    ensures StateOk(cfg, s.(quarantinedRequestIds := s.quarantinedRequestIds + {id}, protocolQuarantined := true))
  {
    var s1 := s.(quarantinedRequestIds := s.quarantinedRequestIds + {id}, protocolQuarantined := true);
    forall x | x in ViewOf(s.routes)
      ensures LiveOk(s1, x, ViewOf(s.routes)[x])
    {
      assert LiveOk(s, x, ViewOf(s.routes)[x]);
    }
  }

  lemma QuarantineKeeps(cfg: Config, s: State, id: RequestId)
    requires ValidConfig(cfg) && StateOk(cfg, s) && s.child.Some? && !MicrotaskDue(s)
    ensures StateOk(cfg, Quarantine(cfg, s, id))
  {
    hide StateOk, Terminate, MaybeRecycle;
    if id in s.quarantinedRequestIds {
    } else if |s.quarantinedRequestIds| >= cfg.quarantineLimit {
      TerminateKeeps(cfg, s);
    } else {
      UnknownIdKeeps(cfg, s, id);
      RecycleKeeps(cfg, s.(quarantinedRequestIds := s.quarantinedRequestIds + {id}, protocolQuarantined := true));
    }
  }

  lemma HandleResponseKeeps(cfg: Config, s: State, id: RequestId, reply: Reply, serial: nat)
    requires ValidConfig(cfg) && StateOk(cfg, s) && s.child.Some? && !MicrotaskDue(s)
    ensures StateOk(cfg, HandleResponse(cfg, s, id, reply, serial))
  {
    if id in s.routes.pendingResponses {
      DeliverKeeps(cfg, s, id, serial);
      var stage := if s.handshake.Probing? then s.handshake.stage else Hello;
      ClearPendingKeeps(cfg, Deliver(s, id, serial), id, false, Answered(stage, reply));
    } else if id in s.routes.pendingStreams {
      TerminateKeeps(cfg, s);
    } else if id in s.tombstones {
      ForgetTombstoneKeeps(cfg, s, id);
      TerminateKeeps(cfg, s);
    } else {
      QuarantineKeeps(cfg, s, id);
    }
  }

  lemma HandleEventKeeps(cfg: Config, s: State, id: RequestId, t: EventType, accepted: bool, serial: nat)
    requires ValidConfig(cfg) && StateOk(cfg, s) && s.child.Some? && !MicrotaskDue(s)
    ensures StateOk(cfg, HandleEvent(cfg, s, id, t, accepted, serial))
  {
    hide StateOk, ClearPending, Terminate, Quarantine;
    if id in s.routes.pendingStreams {
      if !accepted {
        ClearPendingKeeps(cfg, s, id, true, Broken(false));
      } else {
        DeliverKeeps(cfg, s, id, serial);
        ClearPendingKeeps(cfg, Deliver(s, id, serial), id, false, Broken(false));
      }
    } else if id in s.routes.pendingResponses {
      TerminateKeeps(cfg, s);
    } else if id in s.tombstones {
      ForgetTombstoneKeeps(cfg, s, id);
      TerminateKeeps(cfg, s);
    } else {
      QuarantineKeeps(cfg, s, id);
    }
  }

  // ----- every step, every run

  lemma FinishRetiredStateKeeps(cfg: Config, s: State)
    requires ValidConfig(cfg) && StateOk(cfg, s) && s.writes.retired == Some([])
    ensures StateOk(cfg, s.(writes := FinishRetired(s.writes)))
  {
    FinishRetiredKeeps(s.writes, cfg.writes, s.child, s.spawned, s.serials);
    WritesChange(cfg, s, FinishRetired(s.writes));
  }

  lemma OpenStreamKeeps(cfg: Config, s: State, id: RequestId, line: Line)
    requires ValidConfig(cfg) && StateOk(cfg, s)
    ensures StateOk(cfg, OpenStream(cfg, s, id, line))
  {
    if IsFreeId(s, id, false) && HasCapacity(cfg, s, false) {
      OpenStateKeeps(cfg, s, Stream, id, line);
    }
  }

  lemma CancelKeeps(cfg: Config, s: State, id: RequestId, rejection: bool)
    requires ValidConfig(cfg) && StateOk(cfg, s)
    ensures StateOk(cfg, Cancel(cfg, s, id, rejection))
  {
    hide StateOk, ClearPending, Terminate, RejectWaiting;
    if IsWaiting(s.routes, id) {
      RejectWaitingKeeps(cfg, s, id, false);
    } else if IsPending(s.routes, id) {
      ClearThenTerminateKeeps(cfg, s, id, Broken(rejection));
    }
  }

  /** Every step of the transport keeps every clause of the invariant. */
  lemma NextKeeps(cfg: Config, s: State, step: Step)
    requires ValidConfig(cfg) && StateOk(cfg, s) && Enabled(s, step)
    ensures StateOk(cfg, Next(cfg, s, step))
  {
    hide StateOk, Request, OpenStream, StreamHandshake, Resume, Grant, ContinueHandshake, Cancel, Close, BeginWrite;
    hide EndWrite, ClearPending, HandleResponse, HandleEvent, Terminate, RecycleQuarantined, FinishRetired;
    match step
    case RequestStep(id, line) => RequestKeeps(cfg, s, id, line);
    case OpenStreamStep(id, line) => OpenStreamKeeps(cfg, s, id, line);
    case StreamHandshakeStep(id) => StreamHandshakeKeeps(cfg, s, id);
    case ResumeStep(id) => ResumeKeeps(cfg, s, id);
    case GrantStep => GrantKeeps(cfg, s);
    case ContinueStep => ContinueKeeps(cfg, s);
    case CancelStep(id, rejection) => CancelKeeps(cfg, s, id, rejection);
    case CloseStep => CloseKeeps(cfg, s);
    case BeginWriteStep(retired) => BeginWriteKeeps(cfg, s, retired);
    case FinishRetiredStep => FinishRetiredStateKeeps(cfg, s);
    case DeadlineStep(id) => ClearThenTerminateKeeps(cfg, s, id, Broken(false));
    case EndWriteStep(retired, ok) => EndWriteKeeps(cfg, s, retired, ok);
    case ResponseStep(id, reply, serial) => HandleResponseKeeps(cfg, s, id, reply, serial);
    case EventStep(id, t, accepted, serial) => HandleEventKeeps(cfg, s, id, t, accepted, serial);
    case TerminateStep => TerminateKeeps(cfg, s);
    case QuarantineTimerStep => RecycleKeeps(cfg, s);
  }

  /** The state after a run, if every step of it was enabled when it was taken. */
  function Run(cfg: Config, s: State, steps: seq<Step>): Option<State>
    decreases |steps|
  {
    if steps == [] then Some(s)
    else if !Enabled(s, steps[0]) then None
    else Run(cfg, Next(cfg, s, steps[0]), steps[1..])
  }

  lemma {:induction false} RunKeeps(cfg: Config, s: State, steps: seq<Step>)
    requires ValidConfig(cfg) && StateOk(cfg, s)
    ensures Run(cfg, s, steps).Some? ==> StateOk(cfg, Run(cfg, s, steps).value)
    decreases |steps|
  {
    hide StateOk, Next, Enabled;
    if steps != [] && Enabled(s, steps[0]) {
      NextKeeps(cfg, s, steps[0]);
      RunKeeps(cfg, Next(cfg, s, steps[0]), steps[1..]);
    }
  }
}
