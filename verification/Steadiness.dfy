/**
 What a step may do to the handshake, to the pending callers and to the write queue, when
 it is not the handshake's own continuation: the part of every step that the claims about
 negotiation, about quarantine and about one call at a time have in common.
*/
module Steadiness {
  import opened Ledger
  import opened Routes
  import opened Transport
  import opened TransportInvariant
  import opened Wire
  import opened WriteQueue

  /** Every queued line fits into a frame, and every admitted id is a valid one. */
  ghost predicate Proper(cfg: Config, w: Writes, calls: seq<RequestId>) {
    && (forall a :: a in ActiveWrites(w) ==> a.bytes <= cfg.frameLimitBytes)
    && (forall c :: 0 <= c < |calls| ==> IsValidId(calls[c]))
  }

  /** A caller's route is pending exactly as it was. */
  predicate SameRoute(r: Routes, r': Routes, id: RequestId) {
    IsPending(r, id) && IsPending(r', id) && PendingOf(r', id) == PendingOf(r, id)
  }

  /** While the child stays, pending callers stay, apart from those in `gone`; and while the
      transport is quarantined no caller becomes pending. */
  ghost predicate CallersStay(s: State, s': State, gone: set<RequestId>) {
    && (forall id: RequestId :: id.Caller? && IsPending(s.routes, id) && id !in gone ==> SameRoute(s.routes, s'.routes, id))
    && (s.protocolQuarantined ==>
          forall id: RequestId :: id.Caller? && IsPending(s'.routes, id) ==> SameRoute(s.routes, s'.routes, id))
  }

  ghost predicate Kept(cfg: Config, s: State, s': State, gone: set<RequestId>) {
    && (s.child.Some? && s'.child.Some? ==> s'.child == s.child && CallersStay(s, s', gone))
    && (Proper(cfg, s.writes, s.routes.calls) ==> Proper(cfg, s'.writes, s'.routes.calls))
  }

  /** The handshake is left alone, broken, or begun with a hello; its outcome is kept, or
      forgotten with the child. */
  ghost predicate Steady(cfg: Config, s: State, s': State, gone: set<RequestId>) {
    && (|| s'.handshake == s.handshake || s'.handshake.Broken?
        || (s.handshake.NoHandshake? && s'.handshake.Probing? && s'.handshake.stage == Hello))
    && (s'.handshakeState == s.handshakeState || s'.handshakeState == Unknown)
    && (s.child.None? && s'.child.Some? ==> s'.handshakeState == Unknown && s.handshake.NoHandshake?)
    && Kept(cfg, s, s', gone)
  }

  lemma SteadyThen(cfg: Config, s: State, s1: State, s2: State, gone: set<RequestId>, gone': set<RequestId>)
    requires Steady(cfg, s, s1, gone) && Steady(cfg, s1, s2, gone')
    requires s1.child.Some? || s2.child.None? || s.child.None?
    requires s1.protocolQuarantined == s.protocolQuarantined || !s.protocolQuarantined || s2.child.None?
    ensures Steady(cfg, s, s2, gone + gone')
  {
    hide Proper;
  }

  lemma ActiveAreRetired(cfg: Config, w: Writes, child: nat, calls: seq<RequestId>)
    ensures Proper(cfg, w, calls) ==> Proper(cfg, Retire(w, child), calls)
  {
    assert forall a :: a in ActiveWrites(Retire(w, child)) <==> a in ActiveWrites(w);
  }

  lemma FailAllCalls(r: Routes)
    ensures FailAll(r).calls == r.calls
  {
  }

  lemma TerminateSteady(cfg: Config, s: State)
    requires s.child.Some? || !s.handshake.Probing?
    ensures Steady(cfg, s, Terminate(s), {}) && Terminate(s).child.None?
  {
    FailAllCalls(s.routes);
    hide FailAll, Retire, Proper;
    if s.child.Some? {
      ActiveAreRetired(cfg, s.writes, s.child.value, s.routes.calls);
    }
  }

  lemma RecycleSteady(cfg: Config, s: State)
    requires s.child.Some? || !s.handshake.Probing?
    ensures Steady(cfg, s, RecycleQuarantined(s), {}) && Steady(cfg, s, MaybeRecycle(s), {})
    ensures RecycleQuarantined(s).child.None? || RecycleQuarantined(s) == s
    ensures MaybeRecycle(s).child.None? || MaybeRecycle(s) == s
  {
    TerminateSteady(cfg, s.(protocolQuarantined := false));
    hide Terminate, Proper;
  }

  // ----- routes come and go

  lemma AddTombstoneSteady(cfg: Config, s: State, id: RequestId, t: Tombstone)
    requires s.child.Some?
    ensures Steady(cfg, s, AddTombstone(cfg, s, id, t), {})
    ensures var s1 := AddTombstone(cfg, s, id, t); s1.child.None? || s1 == s.(tombstones := s.tombstones[id := t])
  {
    TerminateSteady(cfg, s);
    hide Terminate;
  }

  lemma DetachSteady(cfg: Config, s: State, id: RequestId, after: Handshake)
    requires IsPending(s.routes, id) && s.child.Some?
    requires s.handshake.Probing? && s.handshake.id == id ==> after.Broken?
    ensures Steady(cfg, s, Detach(s, id, after), {id})
  {
    hide Proper;
  }

  /** A route that is cleared, with or without a tombstone. */
  lemma ClearSteady(cfg: Config, s: State, id: RequestId, tombstone: bool, after: Handshake)
    requires IsPending(s.routes, id) && s.child.Some?
    requires s.handshake.Probing? && s.handshake.id == id ==> after.Broken?
    ensures Steady(cfg, s, ClearPending(cfg, s, id, tombstone, after), {id})
  {
    hide Steady, Detach, AddTombstone, MaybeRecycle, DropPending, ClearPending;
    var t := Tombstone(if id in s.routes.pendingResponses then Unary else Stream, PendingOf(s.routes, id).serial);
    var s1 := Detach(s, id, after);
    ClearIs(cfg, s, id, tombstone, after);
    DetachRoutesOnly(s, id, after);
    DetachSteady(cfg, s, id, after);
    DetachedSteady(cfg, s, s1, id, t, tombstone);
  }

  lemma DetachedSteady(cfg: Config, s: State, s1: State, id: RequestId, t: Tombstone, tombstone: bool)
    requires Steady(cfg, s, s1, {id}) && s.child.Some?
    requires s1.child == s.child && s1.protocolQuarantined == s.protocolQuarantined
    ensures Steady(cfg, s, MaybeRecycle(if tombstone then AddTombstone(cfg, s1, id, t) else s1), {id})
  {
    hide Steady, AddTombstone, MaybeRecycle;
    if tombstone {
      var s2 := AddTombstone(cfg, s1, id, t);
      AddTombstoneSteady(cfg, s1, id, t);
      SteadyThen(cfg, s, s1, s2, {id}, {});
      assert {id} + {} == {id};
      RecycledLast(cfg, s, s2, {id});
    } else {
      RecycledLast(cfg, s, s1, {id});
    }
  }

  lemma ClearIs(cfg: Config, s: State, id: RequestId, tombstone: bool, after: Handshake)
    requires IsPending(s.routes, id)
    ensures var t := Tombstone(if id in s.routes.pendingResponses then Unary else Stream, PendingOf(s.routes, id).serial);
      ClearPending(cfg, s, id, tombstone, after) ==
      MaybeRecycle(if tombstone then AddTombstone(cfg, Detach(s, id, after), id, t) else Detach(s, id, after))
  {
    hide MaybeRecycle, AddTombstone, DropPending;
  }

  lemma DetachRoutesOnly(s: State, id: RequestId, after: Handshake)
    requires IsPending(s.routes, id)
    ensures var s1 := Detach(s, id, after); s1.child == s.child && s1.protocolQuarantined == s.protocolQuarantined
  {
  }

  lemma SteadyItself(cfg: Config, s: State)
    ensures Steady(cfg, s, s, {})
  {
  }

  /** The recycle that may follow. */
  lemma RecycledLast(cfg: Config, s: State, s2: State, gone: set<RequestId>)
    requires Steady(cfg, s, s2, gone) && s.child.Some?
    ensures Steady(cfg, s, MaybeRecycle(s2), gone)
  {
    hide Terminate, Proper, CallersStay;
    if s2.protocolQuarantined && s2.handshake.NoHandshake? && NoCallers(s2.routes) {
      TerminateSteady(cfg, s2.(protocolQuarantined := false));
    }
  }

  /** Only the tables of those who wait change, or the transport's own entry. */
  ghost predicate CallersSame(r: Routes, r': Routes) {
    forall id: RequestId :: id.Caller? && (IsPending(r, id) || IsPending(r', id)) ==> SameRoute(r, r', id)
  }

  lemma RoutesSteady(cfg: Config, s: State, s1: State)
    requires CallersSame(s.routes, s1.routes) && s1 == s.(routes := s1.routes) && s1.routes.calls == s.routes.calls
    ensures Steady(cfg, s, s1, {})
  {
  }

  lemma WaitersSame(r: Routes, id: RequestId, phase: WaitPhase, granted: bool)
    requires IsWaiting(r, id)
    ensures CallersSame(r, SetPhase(r, id, phase)) && CallersSame(r, DropWaiting(r, id, granted))
    ensures CallersSame(r, AcquireSlot(r, id))
    ensures AcquireSlot(r, id).calls == SetPhase(r, id, phase).calls == DropWaiting(r, id, granted).calls == r.calls
  {
  }

  lemma OpenSteady(cfg: Config, s: State, kind: Kind, id: RequestId, line: Line)
    requires IsFreeId(s, id, false)
    ensures Steady(cfg, s, s.(routes := Open(s.routes, kind, id, line)), {})
  {
  }

  lemma SubmitSteady(cfg: Config, s: State, id: RequestId, kind: Kind, line: Line, serial: nat)
    requires IsPending(s.routes, id) && s.child.Some?
    ensures Steady(cfg, s, Submit(cfg, s, id, kind, line, serial), {id})
  {
    if CanWrite(cfg, s, line) {
      hide ClearPending;
    } else {
      hide ClearPending, Steady, CanWrite, Charge;
      ClearSteady(cfg, s, id, false, Broken(false));
    }
  }

  lemma IssueSteady(cfg: Config, s: State, id: RequestId, slot: bool)
    requires IsWaiting(s.routes, id) && !IsPending(s.routes, id) && CanIssue(s)
    ensures Steady(cfg, s, Issue(cfg, s, id, slot), {})
  {
    var kind := if id in s.routes.waitingRequests then Unary else Stream;
    LaunchSteady(cfg, s, id, slot);
    hide Submit, Steady, Launch;
    var s1 := Launched(s, id, slot);
    SubmitSteady(cfg, s1, id, kind, WaitingOf(s.routes, id).line, s.serials);
    SteadyThen(cfg, s, s1, Issue(cfg, s, id, slot), {}, {id});
    assert {} + {id} == {id};
    NotGone(cfg, s, Issue(cfg, s, id, slot), id);
  }

  lemma LaunchSteady(cfg: Config, s: State, id: RequestId, slot: bool)
    requires IsWaiting(s.routes, id) && !IsPending(s.routes, id) && CanIssue(s)
    ensures Steady(cfg, s, Launched(s, id, slot), {}) && IsPending(Launched(s, id, slot).routes, id)
  {
    hide Proper;
  }

  lemma NotGone(cfg: Config, s: State, s1: State, id: RequestId)
    requires Steady(cfg, s, s1, {id}) && !IsPending(s.routes, id)
    ensures Steady(cfg, s, s1, {})
  {
    hide Proper;
  }

  // ----- the handshake is begun

  lemma ProbeSteady(cfg: Config, s: State)
    requires s.child.Some? && s.handshake.NoHandshake?
    ensures Steady(cfg, s, Probe(cfg, s, Hello).0, {})
  {
    ProbeUnfolds(cfg, s, Hello);
    if IsFreeId(s, ControlId(s), true) && HasCapacity(cfg, s, true) {
      var s1 := Probed(s, Hello);
      assert IsPending(s1.routes, ControlId(s));
      assert Steady(cfg, s, s1, {}) && s1.child == s.child && s1.protocolQuarantined == s.protocolQuarantined by {
        hide Proper, IsFreeId, HasCapacity;
      }
      hide Steady, Probed, Submit, IsFreeId, HasCapacity;
      var line := Line(cfg.helloBytes, true);
      SubmitSteady(cfg, s1, ControlId(s), Unary, line, s.serials);
      SteadyThen(cfg, s, s1, Submit(cfg, s1, ControlId(s), Unary, line, s.serials), {}, {ControlId(s)});
      assert {} + {ControlId(s)} == {ControlId(s)};
      ControlIsNoCaller(cfg, s, Submit(cfg, s1, ControlId(s), Unary, line, s.serials), ControlId(s));
    }
  }

  lemma ControlIsNoCaller(cfg: Config, s: State, s1: State, id: RequestId)
    requires Steady(cfg, s, s1, {id}) && id.Control?
    ensures Steady(cfg, s, s1, {})
  {
    hide Proper;
  }

  lemma EnsureSteady(cfg: Config, s: State)
    requires s.child.None? ==> !IsWorking(s.handshakeState) || s.closed
    ensures Steady(cfg, s, EnsureHandshake(cfg, s).0, {})
  {
    var s0 := if s.child.None? then Spawn(s) else s;
    SteadyItself(cfg, s);
    if s.handshake.NoHandshake? {
      SpawnSteady(cfg, s);
      hide Steady, Spawn, Probe;
      ProbeSteady(cfg, s0);
      if s.child.None? {
        SpawnThen(cfg, s, s0, Probe(cfg, s0, Hello).0);
      }
    } else {
      hide Steady, Spawn, Probe;
    }
  }

  lemma SpawnSteady(cfg: Config, s: State)
    requires s.handshake.NoHandshake?
    ensures s.child.None? ==> Steady(cfg, s, Spawn(s), {})
    ensures Spawn(s).child.Some? && Spawn(s).handshake == s.handshake
  {
    hide Proper;
  }

  /** A child that has just been spawned may be lost again in the same step. */
  lemma SpawnThen(cfg: Config, s: State, s1: State, s2: State)
    requires Steady(cfg, s, s1, {}) && Steady(cfg, s1, s2, {}) && s.child.None?
    ensures Steady(cfg, s, s2, {})
  {
    hide Proper, CallersStay;
  }

  lemma AfterEnsureSteady(cfg: Config, s: State, v: Verdict, id: RequestId)
    requires IsWaiting(s.routes, id)
    ensures Steady(cfg, s, AfterEnsure(s, v, id), {})
  {
    WaitersSame(s.routes, id, Released(true), false);
    WaitersSame(s.routes, id, AwaitingHandshake, false);
    hide CallersSame, SetPhase, DropWaiting, Steady;
    RoutesSteady(cfg, s, AfterEnsure(s, v, id));
  }

  lemma AfterEnsureRoutesOnly(s: State, v: Verdict, id: RequestId)
    requires IsWaiting(s.routes, id)
    ensures var s1 := AfterEnsure(s, v, id); s1.child == s.child && s1.protocolQuarantined == s.protocolQuarantined
  {
  }

  lemma AskSteady(cfg: Config, s: State, id: RequestId)
    requires s.child.None? ==> !IsWorking(s.handshakeState) || s.closed
    ensures var (s1, v) := EnsureHandshake(cfg, s);
      IsWaiting(s1.routes, id) ==> Steady(cfg, s, AfterEnsure(s1, v, id), {})
  {
    hide EnsureHandshake, AfterEnsure, Steady;
    EnsureSteady(cfg, s);
    var (s1, v) := EnsureHandshake(cfg, s);
    if IsWaiting(s1.routes, id) {
      AfterEnsureSteady(cfg, s1, v, id);
      AfterEnsureRoutesOnly(s1, v, id);
      AfterEnsureSame(s1, v, id);
      RoutesThen(cfg, s, s1, AfterEnsure(s1, v, id));
    }
  }

  lemma AfterEnsureSame(s: State, v: Verdict, id: RequestId)
    requires IsWaiting(s.routes, id)
    ensures CallersSame(s.routes, AfterEnsure(s, v, id).routes)
  {
    WaitersSame(s.routes, id, Released(true), false);
    WaitersSame(s.routes, id, AwaitingHandshake, false);
    hide CallersSame, SetPhase, DropWaiting;
  }

  lemma RoutesThen(cfg: Config, s: State, s1: State, s2: State)
    requires Steady(cfg, s, s1, {}) && Steady(cfg, s1, s2, {})
    requires s2.child == s1.child && s2.protocolQuarantined == s1.protocolQuarantined
    requires CallersSame(s1.routes, s2.routes)
    ensures Steady(cfg, s, s2, {})
  {
    hide Proper;
  }

  // ----- calls, timers, writes and frames

  lemma RequestSteady(cfg: Config, s: State, id: RequestId, line: Line)
    requires s.child.None? ==> !IsWorking(s.handshakeState) || s.closed
    ensures Steady(cfg, s, Request(cfg, s, id, line), {})
  {
    var s1 := s.(routes := Open(s.routes, Unary, id, line));
    SteadyItself(cfg, s);
    if IsFreeId(s, id, false) {
      OpenSteady(cfg, s, Unary, id, line);
      hide Steady, EnsureHandshake, AfterEnsure, Open, IsFreeId, HasCapacity;
      EnsureSteady(cfg, s1);
      AskSteady(cfg, s1, id);
      OpenedThen(cfg, s, s1, EnsureHandshake(cfg, s1).0);
      OpenedThen(cfg, s, s1, Request(cfg, s, id, line));
    }
  }

  lemma OpenedThen(cfg: Config, s: State, s1: State, s2: State)
    requires Steady(cfg, s, s1, {}) && s1.child == s.child && s1.protocolQuarantined == s.protocolQuarantined
    requires s1.handshake == s.handshake && s1.handshakeState == s.handshakeState
    ensures Steady(cfg, s1, s2, {}) ==> Steady(cfg, s, s2, {})
  {
    hide Proper;
  }

  lemma OpenStreamSteady(cfg: Config, s: State, id: RequestId, line: Line)
    ensures Steady(cfg, s, OpenStream(cfg, s, id, line), {})
  {
    SteadyItself(cfg, s);
    if IsFreeId(s, id, false) {
      OpenSteady(cfg, s, Stream, id, line);
    }
    hide Steady, Open, IsFreeId, HasCapacity;
  }

  lemma StreamHandshakeSteady(cfg: Config, s: State, id: RequestId)
    requires IsWaiting(s.routes, id)
    requires s.child.None? ==> !IsWorking(s.handshakeState) || s.closed
    ensures Steady(cfg, s, StreamHandshake(cfg, s, id), {})
  {
    hide Steady, EnsureHandshake, AfterEnsure;
    EnsureSteady(cfg, s);
    AskSteady(cfg, s, id);
  }

  lemma WaitingSteady(cfg: Config, s: State, id: RequestId, granted: bool)
    requires IsWaiting(s.routes, id)
    ensures Steady(cfg, s, RejectWaiting(s, id, granted), {})
    ensures Steady(cfg, s, s.(routes := AcquireSlot(s.routes, id)), {})
  {
    WaitersSame(s.routes, id, AwaitingSlot, granted);
    hide Steady, CallersSame, DropWaiting, AcquireSlot;
    RoutesSteady(cfg, s, RejectWaiting(s, id, granted));
    RoutesSteady(cfg, s, s.(routes := AcquireSlot(s.routes, id)));
  }

  lemma ResumeSteady(cfg: Config, s: State, id: RequestId)
    requires IsWaiting(s.routes, id) && !IsPending(s.routes, id) && WaitingOf(s.routes, id).phase.Released?
    ensures Steady(cfg, s, Resume(cfg, s, id), {})
  {
    hide Steady, Issue, RejectWaiting, CanPromote, AcquireSlot, CanIssue;
    WaitingSteady(cfg, s, id, false);
    if CanIssue(s) {
      IssueSteady(cfg, s, id, false);
    }
  }

  lemma SkipSteady(cfg: Config, s: State)
    requires s.routes.slots != []
    ensures Steady(cfg, s, s.(routes := SkipSlot(s.routes)), {})
  {
    RoutesSteady(cfg, s, s.(routes := SkipSlot(s.routes)));
  }

  lemma GrantedSteady(cfg: Config, s: State, id: RequestId)
    requires IsWaiting(s.routes, id) && !IsPending(s.routes, id)
    ensures Steady(cfg, s, RejectWaiting(s, id, true), {})
    ensures CanIssue(s) ==> Steady(cfg, s, Issue(cfg, s, id, true), {})
  {
    hide Steady, Issue, RejectWaiting;
    WaitingSteady(cfg, s, id, true);
    if CanIssue(s) {
      IssueSteady(cfg, s, id, true);
    }
  }

  lemma GrantSteady(cfg: Config, s: State)
    requires RoutesOk(s.routes) && s.routes.slots != []
    ensures Steady(cfg, s, Grant(cfg, s), {})
  {
    hide RoutesOk, Steady, Issue, RejectWaiting, CanPromote, CanIssue, SlotWanted, SkipSlot, ViewOf;
    if SlotWanted(s.routes) {
      WantedWaits(s);
      GrantedSteady(cfg, s, s.routes.calls[s.routes.slots[0]]);
    } else {
      SkipSteady(cfg, s);
    }
  }

  lemma WantedWaits(s: State)
    requires RoutesOk(s.routes) && SlotWanted(s.routes)
    ensures s.routes.slots[0] < |s.routes.calls|
    ensures var id := s.routes.calls[s.routes.slots[0]]; IsWaiting(s.routes, id) && !IsPending(s.routes, id)
  {
    var id := s.routes.calls[s.routes.slots[0]];
    assert IdOk(s.routes, id);
  }

  lemma CloseSteady(cfg: Config, s: State)
    requires s.child.Some? || !s.handshake.Probing?
    ensures Steady(cfg, s, Close(s), {})
  {
    TerminateSteady(cfg, s.(closed := true));
    hide Terminate, Proper, CallersStay;
  }

  lemma ClearThenSteady(cfg: Config, s: State, id: RequestId, after: Handshake, fatal: bool)
    requires IsPending(s.routes, id) && s.child.Some? && after.Broken?
    ensures var s1 := ClearPending(cfg, s, id, true, after); Steady(cfg, s, if fatal then Terminate(s1) else s1, {id})
  {
    ClearSteady(cfg, s, id, true, after);
    var s1 := ClearPending(cfg, s, id, true, after);
    if fatal {
      ClearedProbe(cfg, s, id, after);
      TerminateSteady(cfg, s1);
      hide Steady, ClearPending, Terminate;
      SteadyLost(cfg, s, s1, Terminate(s1), {id});
    }
  }

  lemma ClearedProbe(cfg: Config, s: State, id: RequestId, after: Handshake)
    requires IsPending(s.routes, id) && s.child.Some? && after.Broken?
    ensures var s1 := ClearPending(cfg, s, id, true, after);
      (s1.child.Some? || !s1.handshake.Probing?) && (s1.handshake == s.handshake || s1.handshake.Broken?)
  {
    hide FailAll, Retire, DropPending;
  }

  lemma SteadyLost(cfg: Config, s: State, s1: State, s2: State, gone: set<RequestId>)
    requires Steady(cfg, s, s1, gone) && Steady(cfg, s1, s2, {}) && s.child.Some? && s2.child.None?
    requires s1.handshake == s.handshake || s1.handshake.Broken? || s2.handshake == s1.handshake
    ensures Steady(cfg, s, s2, gone)
  {
    hide Proper, CallersStay;
  }

  lemma CancelSteady(cfg: Config, s: State, id: RequestId, rejection: bool)
    requires IsPending(s.routes, id) ==> s.child.Some?
    ensures Steady(cfg, s, Cancel(cfg, s, id, rejection), {id})
  {
    SteadyItself(cfg, s);
    if IsWaiting(s.routes, id) {
      WaitingSteady(cfg, s, id, false);
    } else if IsPending(s.routes, id) {
      ClearThenSteady(cfg, s, id, Broken(rejection), HasStartedWrite(s, id));
    }
    hide ClearPending, Terminate, HasStartedWrite, RejectWaiting, Proper;
  }

  lemma DeadlineSteady(cfg: Config, s: State, id: RequestId)
    requires IsPending(s.routes, id) && s.child.Some?
    ensures Steady(cfg, s, Deadline(cfg, s, id), {id})
  {
    hide Steady, ClearPending, Terminate, HasStartedWrite;
    ClearThenSteady(cfg, s, id, Broken(false), false);
    ClearThenSteady(cfg, s, id, Broken(false), true);
  }

  lemma WriteRejectedSteady(cfg: Config, s: State, a: Admission, tombstone: bool)
    requires IsPending(s.routes, a.id) ==> s.child.Some?
    ensures Steady(cfg, s, WriteRejected(cfg, s, a, tombstone), {a.id})
  {
    SteadyItself(cfg, s);
    if IsPending(s.routes, a.id) {
      ClearSteady(cfg, s, a.id, tombstone, Broken(false));
    }
    hide ClearPending, Proper;
  }

  lemma ReleasedSteady(cfg: Config, s: State, retired: bool)
    requires Chain(s.writes, retired) != []
    ensures Steady(cfg, s, s.(writes := Release(s.writes, retired)), {})
  {
    assert forall a :: a in ActiveWrites(Release(s.writes, retired)) ==> a in ActiveWrites(s.writes);
  }

  lemma StartedSteady(cfg: Config, s: State, retired: bool, callers: set<nat>)
    requires Chain(s.writes, retired) != []
    ensures Steady(cfg, s, s.(writes := MarkStarted(s.writes, retired), callerWrites := callers), {})
  {
    var head := Chain(s.writes, retired)[0];
    assert head in ActiveWrites(s.writes);
    assert forall a :: a in ActiveWrites(MarkStarted(s.writes, retired)) ==> a in ActiveWrites(s.writes) || a == head.(started := true);
  }

  lemma BeginWriteSteady(cfg: Config, s: State, retired: bool)
    requires Chain(s.writes, retired) != [] && (IsPending(s.routes, Chain(s.writes, retired)[0].id) ==> s.child.Some?)
    ensures MayStart(s, Chain(s.writes, retired)[0]) ==> Steady(cfg, s, BeginWrite(cfg, s, retired), {})
    ensures Steady(cfg, s, BeginWrite(cfg, s, retired), {Chain(s.writes, retired)[0].id})
  {
    var a := Chain(s.writes, retired)[0];
    if MayStart(s, a) {
      hide MarkStarted, Steady, MayStart;
      StartedSteady(cfg, s, retired, if a.id.Caller? then s.callerWrites + {a.child} else s.callerWrites);
      MoreGone(cfg, s, BeginWrite(cfg, s, retired), {a.id});
    } else {
      hide Release, Steady, MayStart, WriteRejected;
      ReleasedSteady(cfg, s, retired);
      var s1 := s.(writes := Release(s.writes, retired));
      WriteRejectedSteady(cfg, s1, a, true);
      WriteRejectedSteady(cfg, s1, a, false);
      WroteThen(cfg, s, s1, BeginWrite(cfg, s, retired), a.id);
    }
  }

  lemma MoreGone(cfg: Config, s: State, s1: State, gone: set<RequestId>)
    requires Steady(cfg, s, s1, {})
    ensures Steady(cfg, s, s1, gone)
  {
    hide Proper;
  }

  lemma WroteThen(cfg: Config, s: State, s1: State, s2: State, id: RequestId)
    requires Steady(cfg, s, s1, {}) && Steady(cfg, s1, s2, {id})
    requires s1 == s.(writes := s1.writes)
    ensures Steady(cfg, s, s2, {id})
  {
    hide Proper;
  }

  lemma EndWriteSteady(cfg: Config, s: State, retired: bool, ok: bool)
    requires Chain(s.writes, retired) != [] && (IsPending(s.routes, Chain(s.writes, retired)[0].id) ==> s.child.Some?)
    ensures Steady(cfg, s, EndWrite(cfg, s, retired, ok), if ok then {} else {Chain(s.writes, retired)[0].id})
  {
    hide Release, Steady, WriteRejected;
    var a := Chain(s.writes, retired)[0];
    ReleasedSteady(cfg, s, retired);
    var s1 := s.(writes := Release(s.writes, retired));
    WriteRejectedSteady(cfg, s1, a, true);
    if !ok {
      WroteThen(cfg, s, s1, EndWrite(cfg, s, retired, ok), a.id);
    }
  }

  lemma QuarantineSteady(cfg: Config, s: State, id: RequestId)
    requires s.child.Some?
    ensures Steady(cfg, s, Quarantine(cfg, s, id), {})
  {
    SteadyItself(cfg, s);
    TerminateSteady(cfg, s);
    var s1 := s.(quarantinedRequestIds := s.quarantinedRequestIds + {id}, protocolQuarantined := true);
    assert Steady(cfg, s, s1, {});
    RecycledLast(cfg, s, s1, {});
    hide Steady, Terminate, MaybeRecycle;
  }

  lemma DeliverSteady(cfg: Config, s: State, id: RequestId, serial: nat)
    requires IsPending(s.routes, id) && s.child.Some?
    ensures Steady(cfg, s, Deliver(s, id, serial), {})
  {
  }

  lemma DeliverThen(cfg: Config, s: State, id: RequestId, serial: nat, after: Handshake)
    requires IsPending(s.routes, id) && s.child.Some?
    requires s.handshake.Probing? && s.handshake.id == id ==> after.Broken?
    ensures Steady(cfg, s, ClearPending(cfg, Deliver(s, id, serial), id, false, after), {id})
  {
    var s1 := Deliver(s, id, serial);
    DeliverSteady(cfg, s, id, serial);
    ClearSteady(cfg, s1, id, false, after);
    hide Steady, ClearPending;
    SteadyThen(cfg, s, s1, ClearPending(cfg, s1, id, false, after), {}, {id});
    assert {} + {id} == {id};
  }

  lemma ForgottenSteady(cfg: Config, s: State, id: RequestId)
    ensures Steady(cfg, s, s.(tombstones := s.tombstones - {id}), {})
  {
    hide Proper;
  }

  lemma ResponseSteady(cfg: Config, s: State, id: RequestId, reply: Reply, serial: nat)
    requires s.child.Some? && !(id in s.routes.pendingResponses && s.handshake.Probing? && s.handshake.id == id)
    ensures Steady(cfg, s, HandleResponse(cfg, s, id, reply, serial), {id})
  {
    if id in s.routes.pendingResponses {
      var stage := if s.handshake.Probing? then s.handshake.stage else Hello;
      DeliverThen(cfg, s, id, serial, Answered(stage, reply));
      hide Steady, ClearPending, Deliver;
    } else {
      SteadyItself(cfg, s);
      TerminateSteady(cfg, s);
      QuarantineSteady(cfg, s, id);
      ForgottenSteady(cfg, s, id);
      hide Steady, Terminate, Quarantine;
      MoreGone(cfg, s, HandleResponse(cfg, s, id, reply, serial), {id});
    }
  }

  lemma EventSteady(cfg: Config, s: State, id: RequestId, t: EventType, accepted: bool, serial: nat)
    requires s.child.Some? && (id in s.routes.pendingStreams ==> id.Caller?)
    requires s.handshake.Probing? ==> s.handshake.id.Control?
    ensures Steady(cfg, s, HandleEvent(cfg, s, id, t, accepted, serial), if accepted && !IsTerminal(t) then {} else {id})
  {
    if id in s.routes.pendingStreams {
      DeliverSteady(cfg, s, id, serial);
      DeliverThen(cfg, s, id, serial, Broken(false));
      ClearSteady(cfg, s, id, true, Broken(false));
      hide Steady, ClearPending, Deliver;
    } else {
      SteadyItself(cfg, s);
      TerminateSteady(cfg, s);
      QuarantineSteady(cfg, s, id);
      ForgottenSteady(cfg, s, id);
      hide Steady, Terminate, Quarantine;
      MoreGone(cfg, s, HandleEvent(cfg, s, id, t, accepted, serial), {id});
    }
  }

  // ----- every step

  /** Whose route a step may take from the tables although the child stays. */
  function Clears(s: State, step: Step): set<RequestId>
    requires Enabled(s, step)
  {
    match step
    case CancelStep(id, _) => {id}
    case DeadlineStep(id) => {id}
    case ResponseStep(id, _, _) => {id}
    case EventStep(id, t, accepted, _) => if accepted && !IsTerminal(t) then {} else {id}
    case BeginWriteStep(retired) =>
      if MayStart(s, Chain(s.writes, retired)[0]) then {} else {Chain(s.writes, retired)[0].id}
    case EndWriteStep(retired, ok) => if ok then {} else {Chain(s.writes, retired)[0].id}
    case _ => {}
  }

  /** The answer to a probe. */
  predicate IsAnswer(s: State, step: Step) {
    step.ResponseStep? && step.id in s.routes.pendingResponses && step.id.Control?
  }

  lemma StateFacts(cfg: Config, s: State)
    requires StateOk(cfg, s)
    ensures s.child.None? ==> !IsWorking(s.handshakeState) || s.closed
    ensures s.handshake.Probing? ==> s.child.Some? && s.handshake.id.Control?
    ensures forall id :: IsPending(s.routes, id) ==> s.child.Some? && !IsWaiting(s.routes, id)
    ensures forall id :: id in s.routes.pendingStreams ==> id.Caller?
    ensures forall id :: id in s.routes.pendingResponses && s.handshake.Probing? && s.handshake.id == id ==> id.Control?
  {
    forall id | IsPending(s.routes, id)
      ensures s.child.Some? && !IsWaiting(s.routes, id) && (id in s.routes.pendingStreams ==> id.Caller?)
    {
      PendingFacts(s, id);
      assert IdOk(s.routes, id);
    }
    if s.handshake.Probing? {
      var id := s.handshake.id;
      assert IdOk(s.routes, id);
      ViewFits(s.routes, id);
    }
  }

  lemma RoutesAreOk(cfg: Config, s: State)
    requires StateOk(cfg, s)
    ensures RoutesOk(s.routes)
  {
  }

  /** Every step but the handshake's own two is steady. */
  lemma NextSteady(cfg: Config, s: State, step: Step)
    requires ValidConfig(cfg) && StateOk(cfg, s) && Enabled(s, step) && !step.ContinueStep? && !IsAnswer(s, step)
    ensures Steady(cfg, s, Next(cfg, s, step), Clears(s, step))
  {
    hide StateOk, Steady, Next, Enabled, Clears, IsAnswer;
    if IsIo(step) {
      IoSteady(cfg, s, step);
    } else {
      CallSteady(cfg, s, step);
    }
  }

  lemma CallSteady(cfg: Config, s: State, step: Step)
    requires ValidConfig(cfg) && StateOk(cfg, s) && Enabled(s, step) && !step.ContinueStep? && !IsIo(step)
    ensures Steady(cfg, s, Next(cfg, s, step), Clears(s, step))
  {
    StateFacts(cfg, s);
    RoutesAreOk(cfg, s);
    hide StateOk, RoutesOk, Steady, Request, OpenStream, StreamHandshake, Resume, Grant, ContinueHandshake, Cancel, Close;
    hide BeginWrite, FinishRetired, MayStart;
    match step
    case RequestStep(id, line) => RequestSteady(cfg, s, id, line);
    case OpenStreamStep(id, line) => OpenStreamSteady(cfg, s, id, line);
    case StreamHandshakeStep(id) => StreamHandshakeSteady(cfg, s, id);
    case ResumeStep(id) => ResumeSteady(cfg, s, id);
    case GrantStep => GrantSteady(cfg, s);
    case CancelStep(id, rejection) => CancelSteady(cfg, s, id, rejection);
    case CloseStep => CloseSteady(cfg, s);
    case BeginWriteStep(retired) => BeginWriteSteady(cfg, s, retired);
    case FinishRetiredStep => FinishSteady(cfg, s);
  }

  lemma IoSteady(cfg: Config, s: State, step: Step)
    requires ValidConfig(cfg) && StateOk(cfg, s) && Enabled(s, step) && !IsAnswer(s, step) && IsIo(step)
    ensures Steady(cfg, s, Next(cfg, s, step), Clears(s, step))
  {
    StateFacts(cfg, s);
    hide StateOk, Steady, EndWrite, HandleResponse, HandleEvent, Terminate, RecycleQuarantined, Deadline;
    match step
    case DeadlineStep(id) => DeadlineSteady(cfg, s, id);
    case EndWriteStep(retired, ok) => EndWriteSteady(cfg, s, retired, ok);
    case ResponseStep(id, reply, serial) => ResponseSteady(cfg, s, id, reply, serial);
    case EventStep(id, t, accepted, serial) => EventSteady(cfg, s, id, t, accepted, serial);
    case TerminateStep => TerminateSteady(cfg, s);
    case QuarantineTimerStep => RecycleSteady(cfg, s);
  }

  lemma FinishSteady(cfg: Config, s: State)
    requires s.writes.retired == Some([])
    ensures Steady(cfg, s, s.(writes := FinishRetired(s.writes)), {})
  {
    assert forall a :: a in ActiveWrites(FinishRetired(s.writes)) ==> a in ActiveWrites(s.writes);
  }

  // ----- the handshake's own two steps

  lemma AnswerFacts(cfg: Config, s: State, step: Step)
    requires StateOk(cfg, s) && IsAnswer(s, step)
    ensures s.child.Some? && s.handshake.Probing? && s.handshake.id == step.id && IsPending(s.routes, step.id)
  {
    PendingFacts(s, step.id);
  }

  /** The answer to a probe makes the continuation due, and clears nothing else. */
  lemma AnswerKept(cfg: Config, s: State, step: Step)
    requires ValidConfig(cfg) && StateOk(cfg, s) && Enabled(s, step) && IsAnswer(s, step)
    ensures var s' := Next(cfg, s, step);
      && Kept(cfg, s, s', {}) && s'.child == s.child && s'.handshakeState == s.handshakeState
      && s.handshake.Probing? && s.handshake.id == step.id && s'.handshake == Answered(s.handshake.stage, step.reply)
  {
    AnswerFacts(cfg, s, step);
    hide StateOk, Kept, DropPending, Deliver, ClearPending, MaybeRecycle, Detach, Steady;
    var s1 := Deliver(s, step.id, step.serial);
    DeliveredOnly(s, step.id, step.serial);
    DeliveredKept(cfg, s, step.id, step.serial);
    ClearIs(cfg, s1, step.id, false, Answered(s.handshake.stage, step.reply));
    AnsweredKept(cfg, s1, step.id, Answered(s.handshake.stage, step.reply));
    KeptThen(cfg, s, s1, Next(cfg, s, step));
  }

  lemma DeliveredKept(cfg: Config, s: State, id: RequestId, serial: nat)
    requires IsPending(s.routes, id) && s.child.Some?
    ensures Kept(cfg, s, Deliver(s, id, serial), {})
  {
    DeliverSteady(cfg, s, id, serial);
    hide Deliver, Kept;
  }

  lemma DeliveredOnly(s: State, id: RequestId, serial: nat)
    requires IsPending(s.routes, id) && s.child.Some?
    ensures var s1 := Deliver(s, id, serial);
      s1 == s.(deliveries := s1.deliveries)
  {
  }

  lemma AnsweredKept(cfg: Config, s: State, id: RequestId, after: Handshake)
    requires IsPending(s.routes, id) && s.child.Some? && s.handshake.Probing? && s.handshake.id == id && id.Control?
    requires after.Answered?
    ensures var s' := MaybeRecycle(Detach(s, id, after));
      Kept(cfg, s, s', {}) && s'.child == s.child && s'.handshakeState == s.handshakeState && s'.handshake == after
  {
    hide Proper;
  }

  lemma KeptThen(cfg: Config, s: State, s1: State, s2: State)
    requires Kept(cfg, s, s1, {}) && Kept(cfg, s1, s2, {}) && s1 == s.(deliveries := s1.deliveries)
    ensures Kept(cfg, s, s2, {})
  {
    hide Proper;
  }

  lemma ReleasedKept(cfg: Config, s: State, s1: State, ok: bool)
    requires s1.routes == ReleaseWaiters(s.routes, ok) && s1.writes == s.writes && s1.child == s.child
    requires s1.protocolQuarantined == s.protocolQuarantined
    ensures Kept(cfg, s, s1, {}) && Kept(cfg, s, MaybeRecycle(s1), {})
  {
    hide Terminate;
    TerminateSteady(cfg, s1.(protocolQuarantined := false, handshake := NoHandshake));
    RecycledKept(cfg, s, s1);
  }

  lemma RecycledKept(cfg: Config, s: State, s1: State)
    requires Kept(cfg, s, s1, {}) 
    ensures Kept(cfg, s, MaybeRecycle(s1), {})
  {
    if s1.protocolQuarantined && s1.handshake.NoHandshake? && NoCallers(s1.routes) {
      TerminateSteady(cfg, s1.(protocolQuarantined := false));
    }
    hide Terminate, Proper;
  }

  lemma ContinueKept(cfg: Config, s: State)
    requires ValidConfig(cfg) && StateOk(cfg, s) && MicrotaskDue(s)
    ensures Kept(cfg, s, ContinueHandshake(cfg, s), {})
  {
    hide StateOk, Succeed, GiveUp, Block, NextProbe, Kept;
    BlockKept(cfg, s);
    GiveUpKept(cfg, s);
    if s.handshake.Answered? {
      SucceedKept(cfg, s, Ready);
      SucceedKept(cfg, s, SingleFlight);
      SucceedKept(cfg, s, Legacy);
      NextProbeKept(cfg, s, LegacyVersion);
      NextProbeKept(cfg, s, LegacyCapabilities(true));
      NextProbeKept(cfg, s, LegacyCapabilities(false));
    }
  }

  lemma SucceedKept(cfg: Config, s: State, h: HandshakeState)
    ensures Kept(cfg, s, Succeed(s, h), {})
  {
    hide ReleaseWaiters, Kept, MaybeRecycle;
    var s1 := s.(
      handshakeState := h,
      handshake := NoHandshake,
      routes := ReleaseWaiters(s.routes, true),
      negotiated := if s.child.Some? then s.negotiated + {s.child.value} else s.negotiated);
    ReleasedKept(cfg, s, s1, true);
  }

  lemma GiveUpKept(cfg: Config, s: State)
    ensures Kept(cfg, s, GiveUp(s), {})
  {
    hide ReleaseWaiters, Kept, MaybeRecycle;
    var s1 := s.(handshakeState := Unknown, handshake := NoHandshake, routes := ReleaseWaiters(s.routes, false));
    ReleasedKept(cfg, s, s1, false);
  }

  lemma BlockKept(cfg: Config, s: State)
    requires MicrotaskDue(s)
    ensures Kept(cfg, s, Block(s), {})
  {
    TerminateSteady(cfg, s);
    hide Terminate, MaybeRecycle;
    RecycledKept(cfg, s, Terminate(s).(handshakeState := Blocked, handshake := NoHandshake));
  }

  lemma SubmittedProbe(cfg: Config, s: State, stage: Stage, line: Line)
    requires s.child.Some? && s.handshakeState == Unknown && IsFreeId(s, ControlId(s), true)
    ensures IsPending(Probed(s, stage).routes, ControlId(s))
    ensures var s2 := Submit(cfg, Probed(s, stage), ControlId(s), Unary, line, s.serials);
      && Kept(cfg, s, s2, {}) && s2.handshakeState == Unknown
      && (s2.handshake.Broken? || s2.handshake == Probing(ControlId(s), stage))
  {
    var id, s1 := ControlId(s), Probed(s, stage);
    var s2 := Submit(cfg, s1, id, Unary, line, s.serials);
    assert IsPending(s1.routes, id);
    ProbedIsKept(cfg, s, stage);
    hide Submit, IsFreeId, Probed, Proper;
    SubmitSteady(cfg, s1, id, Unary, line, s.serials);
  }

  lemma ProbedIsKept(cfg: Config, s: State, stage: Stage)
    requires s.child.Some? && IsFreeId(s, ControlId(s), true)
    ensures var s1 := Probed(s, stage);
      && Kept(cfg, s, s1, {}) && s1.child == s.child && s1.protocolQuarantined == s.protocolQuarantined
      && s1.handshakeState == s.handshakeState && s1.handshake == Probing(ControlId(s), stage)
  {
    hide IsFreeId;
  }

  lemma ProbeStarts(cfg: Config, s: State, stage: Stage)
    ensures !Probe(cfg, s, stage).1 ==> Probe(cfg, s, stage).0 == s.(handshakeGeneration := s.handshakeGeneration + 1)
    ensures s.closed || s.protocolQuarantined ==> !Probe(cfg, s, stage).1
    ensures !IsFreeId(s, ControlId(s), true) || !HasCapacity(cfg, s, true) <==> !Probe(cfg, s, stage).1
  {
    hide Submit, OpenControl;
  }

  lemma NextProbeKept(cfg: Config, s: State, stage: Stage)
    requires ValidConfig(cfg) && StateOk(cfg, s) && s.handshake.Answered?
    ensures Kept(cfg, s, NextProbe(cfg, s, stage), {})
    ensures var s' := NextProbe(cfg, s, stage);
      && s'.handshakeState == Unknown
      && (s.closed || s.protocolQuarantined ==> s'.handshake.NoHandshake?)
      && (!s.closed && !s.protocolQuarantined ==>
            s'.handshake.Broken? || (s'.handshake.Probing? && s'.handshake.stage == stage))
  {
    assert s.handshakeState == Unknown && (s.child.Some? || s.closed);
    ProbeFits(cfg, s);
    ProbeStarts(cfg, s, stage);
    hide StateOk, IsFreeId, HasCapacity, Submit, Probe, GiveUp, Kept, Probed;
    if s.closed || s.protocolQuarantined {
      var s1 := s.(handshakeGeneration := s.handshakeGeneration + 1);
      GiveUpKept(cfg, s1);
      GivenUp(s1);
      MintedKept(cfg, s, s1, GiveUp(s1));
    } else {
      ProbeUnfolds(cfg, s, stage);
      SubmittedProbe(cfg, s, stage, Line(if stage == Hello then cfg.helloBytes else cfg.probeBytes, true));
    }
  }

  lemma GivenUp(s: State)
    ensures GiveUp(s).handshake.NoHandshake? && GiveUp(s).handshakeState == Unknown
  {
    hide FailAll, Retire, ReleaseWaiters;
  }

  lemma MintedKept(cfg: Config, s: State, s1: State, s2: State)
    requires s1 == s.(handshakeGeneration := s1.handshakeGeneration) && Kept(cfg, s1, s2, {})
    ensures Kept(cfg, s, s2, {})
  {
    hide Proper;
  }
}
