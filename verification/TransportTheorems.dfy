/**
 What the transport promises its callers, stated of every run from the start: any
 backend, any interleaving.
*/
module TransportTheorems {
  import opened Ledger
  import opened Progress
  import opened Routes
  import opened Transport
  import opened TransportInvariant
  import opened Wire
  import opened WriteQueue

  ghost predicate Reaches(cfg: Config, steps: seq<Step>, s: State) {
    ValidConfig(cfg) && Run(cfg, INITIAL, steps) == Some(s)
  }

  lemma ReachableOk(cfg: Config, steps: seq<Step>, s: State)
    requires Reaches(cfg, steps, s)
    ensures StateOk(cfg, s)
  {
    hide StateOk, Run;
    InitialOk(cfg);
    RunKeeps(cfg, INITIAL, steps);
  }

  // ----- admission and routing

  /** Exactly one table for an admitted id, no table for any other; a tombstoned id has none. */
  lemma RoutesArePartitioned(cfg: Config, steps: seq<Step>, s: State, id: RequestId)
    requires Reaches(cfg, steps, s)
    ensures var r := s.routes;
      var tables := (if id in r.waitingRequests then 1 else 0) + (if id in r.waitingStreams then 1 else 0)
                    + (if id in r.pendingResponses then 1 else 0) + (if id in r.pendingStreams then 1 else 0);
      && tables == (if id in r.waitingAdmissionIds || id in r.activeRequestIds then 1 else 0)
      && !(id in r.waitingAdmissionIds && id in r.activeRequestIds)
      && (id in r.activeControlRequestIds <==> id in r.activeRequestIds && id.Control?)
      && (id in s.tombstones ==> tables == 0)
  {
    ReachableOk(cfg, steps, s);
    assert IdOk(s.routes, id);
    ViewFits(s.routes, id);
    assert id in ViewOf(s.routes) ==> LiveOk(s, id, ViewOf(s.routes)[id]);
    hide StateOk, Reaches;
  }

  /** The aggregate bound, the reserve for the transport's own routes, and the bounds on
      what late output may leave behind. */
  lemma AdmissionIsBounded(cfg: Config, steps: seq<Step>, s: State)
    requires Reaches(cfg, steps, s)
    ensures |s.routes.waitingAdmissionIds| + |s.routes.activeRequestIds| <= cfg.maxInFlight
    ensures s.handshakeState == Unknown ==> Callers(s.routes) <= cfg.maxInFlight - 1
    ensures |s.tombstones| <= cfg.tombstoneLimit && |s.quarantinedRequestIds| <= cfg.quarantineLimit
  {
    ReachableOk(cfg, steps, s);
  }

  /** However many callers race, the hello and each legacy probe find a free id and room:
      only a closed or quarantined transport refuses its own probe. */
  lemma HandshakeIsNeverCrowdedOut(cfg: Config, steps: seq<Step>, s: State)
    requires Reaches(cfg, steps, s)
    requires s.handshakeState == Unknown && !s.handshake.Probing?
    ensures HasCapacity(cfg, s, true)
    ensures IsFreeId(s, ControlId(s), true) <==> !s.closed && !s.protocolQuarantined
  {
    hide StateOk, HasCapacity, IsFreeId;
    ReachableOk(cfg, steps, s);
    ProbeFits(cfg, s);
  }

  /** A call is live in a table until it has its one outcome, and outcomes are final. */
  lemma EveryCallSettlesOnce(cfg: Config, steps: seq<Step>, s: State, more: seq<Step>, s': State, c: nat)
    requires Reaches(cfg, steps, s) && Run(cfg, s, more) == Some(s')
    requires c < |s.routes.calls|
    ensures c in s.routes.settled <==> !Carries(ViewOf(s.routes), s.routes.calls, c)
    ensures c in s.routes.settled ==> c in s'.routes.settled
    ensures c < |s'.routes.calls| && s'.routes.calls[c] == s.routes.calls[c]
  {
    ReachableOk(cfg, steps, s);
    assert c in s.routes.settled <==> !Carries(ViewOf(s.routes), s.routes.calls, c);
    hide StateOk, Run, ViewOf;
    RunForward(cfg, s, more);
  }

  ghost predicate EveryoneSettled(s: State, s': State) {
    && Ids(s'.routes) == {} && Admitted(s'.routes) == 0 && s'.child.None?
    && (forall c: nat :: c < |s.routes.calls| ==> c in s'.routes.settled)
    && ActiveWrites(s'.writes) == ActiveWrites(s.writes)
    && s'.writes.count == s.writes.count && s'.writes.bytes == s.writes.bytes
  }

  lemma TerminateSettles(s: State)
    requires RoutesOk(s.routes)
    ensures EveryoneSettled(s, Terminate(s))
  {
    FailAllKeeps(s.routes);
    hide RoutesOk, ViewOf, FailAll;
  }

  /** `terminate`, a process failure and `close` give every route its outcome and empty the
      tables, but unfinished writes stay charged. */
  lemma TeardownSettlesEveryone(cfg: Config, steps: seq<Step>, s: State)
    requires Reaches(cfg, steps, s)
    ensures EveryoneSettled(s, Terminate(s)) && EveryoneSettled(s, Close(s))
  {
    ReachableOk(cfg, steps, s);
    TerminateSettles(s);
    TerminateSettles(s.(closed := true));
    hide StateOk, Terminate;
  }

  // ----- writes

  /** The queue's counters are exact and bounded, and unfinished writes belong to at most
      two child generations, only one of which can be the current child. */
  lemma WritesAreAccounted(cfg: Config, steps: seq<Step>, s: State)
    requires Reaches(cfg, steps, s)
    ensures s.writes.count == |ActiveWrites(s.writes)| <= cfg.writes.count
    ensures s.writes.bytes == BytesOf(ActiveWrites(s.writes)) <= cfg.writes.bytes
    ensures forall a, b, c :: a in ActiveWrites(s.writes) && b in ActiveWrites(s.writes) && c in ActiveWrites(s.writes) ==>
      a.child == b.child || b.child == c.child || a.child == c.child
    ensures s.child.Some? ==> (forall a :: a in s.writes.tail ==> a.child == s.child.value)
                              && (forall a :: a in Retired(s.writes) ==> a.child < s.child.value)
  {
    ReachableOk(cfg, steps, s);
    var w := s.writes;
    var older := if Retired(w) != [] then Retired(w)[0].child else 0;
    var newer := if w.tail != [] then w.tail[0].child else 0;
    forall a | a in ActiveWrites(w)
      ensures a.child == older || a.child == newer
    {
      assert a in Retired(w) || a in w.tail;
    }
  }

  /** How far the unfinished writes are from being drained. */
  function Remaining(q: seq<Admission>): nat {
    if q == [] then 0 else (if q[0].started then 1 else 2) + Remaining(q[1..])
  }

  function Undrained(w: Writes): nat {
    Remaining(w.tail) + Remaining(Retired(w)) + if w.retired.Some? then 1 else 0
  }

  predicate IsDrainStep(step: Step) {
    step.BeginWriteStep? || step.EndWriteStep? || step.FinishRetiredStep?
  }

  /** A blocked recycle is never stuck: some write step is due, every write step brings it
      nearer to its end, and at the end it is not blocked. */
  lemma RecycleBlockIsTemporary(cfg: Config, steps: seq<Step>, s: State)
    requires Reaches(cfg, steps, s) && s.writes.recycleBlocked
    ensures MicrotaskDue(s) || exists step :: IsDrainStep(step) && Enabled(s, step)
    ensures forall step :: IsDrainStep(step) && Enabled(s, step) ==>
      Undrained(Next(cfg, s, step).writes) < Undrained(s.writes)
    ensures Undrained(s.writes) > 0
  {
    ReachableOk(cfg, steps, s);
    if !MicrotaskDue(s) {
      var retired := Retired(s.writes) != [];
      if Chain(s.writes, retired) == [] {
        assert Enabled(s, FinishRetiredStep);
      } else if Chain(s.writes, retired)[0].started {
        assert Enabled(s, EndWriteStep(retired, true));
      } else {
        assert Enabled(s, BeginWriteStep(retired));
      }
    }
    forall step | IsDrainStep(step) && Enabled(s, step)
      ensures Undrained(Next(cfg, s, step).writes) < Undrained(s.writes)
    {
      DrainStep(cfg, s, step);
    }
  }

  lemma ReleaseDrains(w: Writes, retired: bool)
    requires Chain(w, retired) != []
    ensures Undrained(Release(w, retired)) < Undrained(w)
  {
  }

  /** With no child there is nothing to start and no route left to reject. */
  lemma DrainsAre(cfg: Config, s: State, step: Step)
    requires IsDrainStep(step) && Enabled(s, step)
    requires s.child.None? && forall id :: !IsPending(s.routes, id)
    ensures Next(cfg, s, step).writes ==
      if step.FinishRetiredStep? then FinishRetired(s.writes) else Release(s.writes, step.retired)
  {
    hide Release, FinishRetired, ClearPending, MarkStarted, ViewOf;
    if step.BeginWriteStep? || step.EndWriteStep? {
      assert !IsPending(s.routes, Chain(s.writes, step.retired)[0].id);
    }
  }

  lemma FinishDrains(w: Writes)
    requires w.retired == Some([])
    ensures Undrained(FinishRetired(w)) < Undrained(w)
  {
  }

  lemma DrainStep(cfg: Config, s: State, step: Step)
    requires StateOk(cfg, s) && s.writes.recycleBlocked && IsDrainStep(step) && Enabled(s, step)
    ensures Undrained(Next(cfg, s, step).writes) < Undrained(s.writes)
  {
    NobodyPends(cfg, s);
    DrainsAre(cfg, s, step);
    hide StateOk, Next, Release, FinishRetired, Undrained;
    if step.FinishRetiredStep? {
      FinishDrains(s.writes);
    } else {
      ReleaseDrains(s.writes, step.retired);
    }
  }

  lemma NobodyPends(cfg: Config, s: State)
    requires StateOk(cfg, s) && s.writes.recycleBlocked
    ensures s.child.None? && forall id :: !IsPending(s.routes, id)
  {
    forall id ensures !IsPending(s.routes, id) {
      if IsPending(s.routes, id) {
        PendingFacts(s, id);
      }
    }
  }

  // ----- negotiation

  /** No child is handed a caller's line before its own hello, or both its legacy probes,
      succeeded. */
  lemma NegotiationPrecedesWork(cfg: Config, steps: seq<Step>, s: State)
    requires Reaches(cfg, steps, s)
    ensures s.callerWrites <= s.negotiated
    ensures forall id: RequestId :: id.Caller? && IsPending(s.routes, id) ==> s.child.Some? && s.child.value in s.negotiated
  {
    ReachableOk(cfg, steps, s);
    forall id: RequestId | id.Caller? && IsPending(s.routes, id)
      ensures s.child.Some? && s.child.value in s.negotiated
    {
      PendingFacts(s, id);
    }
  }

  /** A rejected hello is final: no later child, no later line, no later pending call. */
  lemma BlockedIsFinal(cfg: Config, s: State, step: Step)
    requires ValidConfig(cfg) && StateOk(cfg, s) && s.handshakeState == Blocked && Enabled(s, step)
    ensures var s' := Next(cfg, s, step);
      && s'.handshakeState == Blocked && s'.child.None? && s'.spawned == s.spawned
      && s'.callerWrites == s.callerWrites
      && forall id :: !IsPending(s'.routes, id)
  {
    BlockedFacts(cfg, s);
    NextKeeps(cfg, s, step);
    BlockedStays(cfg, s, step);
    BlockedFacts(cfg, Next(cfg, s, step));
    hide StateOk, Next, Enabled;
  }

  /** And it stays final: whatever is tried afterwards, nothing is spawned or written. */
  lemma {:induction false} BlockedForever(cfg: Config, s: State, more: seq<Step>)
    requires ValidConfig(cfg) && StateOk(cfg, s) && s.handshakeState == Blocked
    ensures Run(cfg, s, more).Some? ==>
      var s' := Run(cfg, s, more).value;
      s'.handshakeState == Blocked && s'.spawned == s.spawned && s'.callerWrites == s.callerWrites
    decreases |more|
  {
    hide StateOk, Next, Enabled;
    if more != [] && Enabled(s, more[0]) {
      NextKeeps(cfg, s, more[0]);
      BlockedIsFinal(cfg, s, more[0]);
      BlockedForever(cfg, Next(cfg, s, more[0]), more[1..]);
    }
  }

  lemma BlockedEnsures(cfg: Config, s: State)
    requires s.handshakeState == Blocked
    ensures EnsureHandshake(cfg, s) == (s, Rejected)
  {
  }

  lemma BlockedRequestIs(cfg: Config, s: State, id: RequestId, line: Line)
    requires s.handshakeState == Blocked
    ensures Request(cfg, s, id, line) ==
      if IsFreeId(s, id, false) && HasCapacity(cfg, s, false)
      then RejectWaiting(s.(routes := Open(s.routes, Unary, id, line)), id, false)
      else s
  {
    BlockedEnsures(cfg, s.(routes := Open(s.routes, Unary, id, line)));
    hide IsFreeId, HasCapacity, EnsureHandshake, DropWaiting;
  }

  lemma OpenedAndDropped(r: Routes, id: RequestId, line: Line)
    requires IdOk(r, id) && id !in r.waitingAdmissionIds && id !in r.activeRequestIds
    ensures DropWaiting(Open(r, Unary, id, line), id, false) ==
      r.(calls := r.calls + [id], settled := r.settled + {|r.calls|})
  {
    var r1 := Open(r, Unary, id, line);
    assert r1.waitingRequests - {id} == r.waitingRequests;
    assert r1.waitingStreams - {id} == r.waitingStreams;
    assert r1.waitingAdmissionIds - {id} == r.waitingAdmissionIds;
    assert r1.activeRequestIds - {id} == r.activeRequestIds;
  }

  /** Every later request fails on the spot: refused outright, or opened and settled in the
      same step, and nothing else about the transport changes. */
  lemma BlockedRequestsFail(cfg: Config, s: State, id: RequestId, line: Line)
    requires StateOk(cfg, s) && s.handshakeState == Blocked
    ensures var s' := Request(cfg, s, id, line);
      || s' == s
      || s' == s.(routes := s.routes.(calls := s.routes.calls + [id], settled := s.routes.settled + {|s.routes.calls|}))
  {
    assert IdOk(s.routes, id);
    BlockedRequestIs(cfg, s, id, line);
    hide StateOk, ViewOf, Request, Open, DropWaiting, IdOk, HasCapacity;
    if IsFreeId(s, id, false) && HasCapacity(cfg, s, false) {
      OpenedAndDropped(s.routes, id, line);
    }
  }

  lemma BlockedFacts(cfg: Config, s: State)
    requires StateOk(cfg, s) && s.handshakeState == Blocked
    ensures s.child.None? && s.handshake.NoHandshake? && !s.protocolQuarantined
    ensures forall id :: !IsPending(s.routes, id)
    ensures forall id :: IsWaiting(s.routes, id) ==>
      WaitingOf(s.routes, id).phase != AwaitingSlot && WaitingOf(s.routes, id).phase != Released(true)
    ensures !SlotWanted(s.routes)
  {
    forall id ensures !IsPending(s.routes, id) {
      if IsPending(s.routes, id) {
        PendingFacts(s, id);
      }
    }
    forall id | IsWaiting(s.routes, id)
      ensures WaitingOf(s.routes, id).phase != AwaitingSlot && WaitingOf(s.routes, id).phase != Released(true)
    {
      WaitingFacts(s, id);
    }
  }

  lemma BlockedStays(cfg: Config, s: State, step: Step)
    requires s.handshakeState == Blocked && Enabled(s, step)
    requires s.child.None? && s.handshake.NoHandshake? && !s.protocolQuarantined
    requires forall id :: !IsPending(s.routes, id)
    requires forall id :: IsWaiting(s.routes, id) ==> WaitingOf(s.routes, id).phase != Released(true)
    requires !SlotWanted(s.routes)
    ensures var s' := Next(cfg, s, step);
      s'.handshakeState == Blocked && s'.spawned == s.spawned && s'.callerWrites == s.callerWrites
  {
    hide ViewOf, SlotWanted, FailAll, Open, DropWaiting, SetPhase, Release, Probe, ClearPending, Issue, Retire;
    if step.EndWriteStep? || step.BeginWriteStep? {
      assert !IsPending(s.routes, Chain(s.writes, step.retired)[0].id);
    }
  }

  // ----- the single-flight slot

  /** In single-flight and legacy mode at most one caller's route is pending. */
  lemma SingleFlightIsExclusive(cfg: Config, steps: seq<Step>, s: State, x: RequestId, y: RequestId)
    requires Reaches(cfg, steps, s) && IsSingleFlight(s.handshakeState)
    requires x.Caller? && IsPending(s.routes, x) && y.Caller? && IsPending(s.routes, y)
    ensures x == y
  {
    ReachableOk(cfg, steps, s);
    PendingFacts(s, x);
    PendingFacts(s, y);
    SlotIsExclusive(ViewOf(s.routes), s.routes.calls, s.routes.settled, s.routes.slots, x, y);
  }

  lemma ChainIsDistinct(cfg: Config, s: State)
    requires StateOk(cfg, s)
    ensures Distinct(s.routes.slots)
  {
  }

  /** When a call comes to hold the slot, every call that asked before it has settled. */
  lemma SlotIsFifo(cfg: Config, steps: seq<Step>, s: State, more: seq<Step>, s': State, i: nat)
    requires Reaches(cfg, steps, s) && Run(cfg, s, more) == Some(s')
    requires SlotHeld(s'.routes) && i < |s.routes.slots| && s'.routes.slots[0] == s.routes.slots[i]
    ensures forall j :: 0 <= j < i ==> s.routes.slots[j] in s'.routes.settled
  {
    hide Run, StateOk, SlotHeld;
    ReachableOk(cfg, steps, s);
    RunKeeps(cfg, s, more);
    ChainIsDistinct(cfg, s');
    RunForward(cfg, s, more);
    var k: nat :| PassedOn(s.routes, s'.routes, k);
    if k <= i {
      assert s.routes.slots[k..][i - k] == s'.routes.slots[i - k];
    }
  }
}
