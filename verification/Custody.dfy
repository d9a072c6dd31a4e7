/**
 Who is answerable for an id. Between the moment a route's write is issued and the
 moment its terminal frame is consumed, the id is held: by the pending route, or by the
 tombstone it leaves behind. A held id cannot be admitted again, which is what makes
 late frames harmless.
*/
module Custody {
  import opened Ledger
  import opened Routes
  import opened Transport
  import opened TransportInvariant
  import opened Wire
  import opened WriteQueue

  /** The serial of the write for which `id` is held. */
  function HolderOf(s: State, id: RequestId): Option<nat> {
    if IsPending(s.routes, id) then Some(PendingOf(s.routes, id).serial)
    else if id in s.tombstones then Some(s.tombstones[id].serial)
    else None
  }

  predicate Queueing(s: State, a: Admission) {
    a in s.writes.tail && !a.started
  }

  /** No line that a retired child never took carries the id of a live route. */
  ghost predicate NoStaleWrite(s: State) {
    forall a :: a in Retired(s.writes) && !a.started ==> a.id !in ViewOf(s.routes)
  }

  /** What every step keeps as long as no stale line hits a route. If the callers have been
      prudent so far, no stale line shares an id with a live route in the first place. */
  ghost predicate Tidy(s: State, prudent: bool) {
    && (prudent ==> NoStaleWrite(s))
    && !s.protocolQuarantined
    && (forall a :: a in ActiveWrites(s.writes) && a.id.Control? ==> a.id.number <= s.handshakeGeneration)
    && (s.child.Some? ==> forall a :: Queueing(s, a) ==> HolderOf(s, a.id) == Some(a.serial))
  }

  /** What a step that consumes no frame may do to custody while the child stays: take
      new ids, and nothing else. */
  ghost predicate KeepsCustody(s: State, s': State) {
    && s'.deliveries == s.deliveries
    && s.serials <= s'.serials
    && (s'.child == s.child ==> forall a :: Queueing(s', a) ==> Queueing(s, a) || s.serials <= a.serial)
    && (s'.child == s.child ==>
          forall x :: HolderOf(s, x).Some? ==> HolderOf(s', x) == HolderOf(s, x))
    && (s'.child == s.child || s'.child.None? || s'.child == Some(s.spawned))
    && s'.spawned == s.spawned + (if s'.child == Some(s.spawned) && s'.child != s.child then 1 else 0)
  }

  /** A route of the failed write's own kind is pending under its id: the guard of the
      failure handler. */
  predicate Hits(s: State, a: Admission) {
    if a.kind == Unary then a.id in s.routes.pendingResponses else a.id in s.routes.pendingStreams
  }

  /** The exact guard: when a retired child's unstarted line is drained, its failure
      hits no route. */
  predicate Harmless(s: State, step: Step) {
    step == BeginWriteStep(true) && Retired(s.writes) != [] ==> !Hits(s, Retired(s.writes)[0])
  }

  /** What a caller can do about it: it does not reuse an id that a retired child's
      unstarted line still carries. */
  predicate Prudent(s: State, step: Step) {
    step.RequestStep? || step.OpenStreamStep? ==>
      forall a :: a in Retired(s.writes) && !a.started ==> a.id != step.id
  }

  /** Or, without looking: it opens a call only under an id that no call has used before. */
  predicate IsFresh(s: State, step: Step) {
    step.RequestStep? || step.OpenStreamStep? ==> step.id.Caller? && step.id !in s.routes.calls
  }

  /** Without a child no id is held and nothing is queued for one. */
  lemma NobodyHeld(cfg: Config, s: State, x: RequestId)
    requires StateOk(cfg, s) && s.child.None?
    ensures HolderOf(s, x).None?
  {
    if IsPending(s.routes, x) {
      PendingFacts(s, x);
    }
  }

  lemma TerminateCustody(cfg: Config, s: State, prudent: bool)
    requires ValidConfig(cfg) && StateOk(cfg, s) && Tidy(s, prudent)
    requires s.handshake.Answered? ==> s.closed
    ensures Tidy(Terminate(s), prudent) && KeepsCustody(s, Terminate(s))
    ensures Terminate(s).child.None?
  {
    hide StateOk, Terminate, ActiveWrites, HolderOf;
    TerminateKeeps(cfg, s);
    TerminateWrites(s);
    if s.child.None? {
      forall x ensures HolderOf(s, x).None? {
        NobodyHeld(cfg, s, x);
      }
    }
  }

  lemma TerminateWrites(s: State)
    ensures var s' := Terminate(s);
      && ActiveWrites(s'.writes) == ActiveWrites(s.writes)
      && s'.handshakeGeneration == s.handshakeGeneration
      && s'.spawned == s.spawned && s'.serials == s.serials && s'.deliveries == s.deliveries
      && s'.child.None?
      && (s.child.None? ==> s'.writes == s.writes && s'.protocolQuarantined == s.protocolQuarantined)
      && (s.child.Some? ==> !s'.protocolQuarantined)
  {
    hide FailAll;
    if s.child.Some? {
      RetireWrites(s.writes, s.child.value);
    }
  }

  lemma RetireWrites(w: Writes, child: nat)
    ensures ActiveWrites(Retire(w, child)) == ActiveWrites(w)
  {
  }

  // ----- the two ways a step ends: custody as it was, or the child gone

  ghost predicate Steady(s: State, s': State, grown: set<RequestId>) {
    && s'.child == s.child && s'.spawned == s.spawned && s'.deliveries == s.deliveries
    && s'.serials == s.serials && s'.writes == s.writes
    && s.handshakeGeneration <= s'.handshakeGeneration
    && s'.protocolQuarantined == s.protocolQuarantined
    && ViewOf(s'.routes).Keys <= ViewOf(s.routes).Keys + grown
    && (forall x :: HolderOf(s', x) == HolderOf(s, x))
  }

  lemma SteadyKeeps(s: State, s': State, grown: set<RequestId>, prudent: bool)
    requires Tidy(s, prudent) && Steady(s, s', grown)
    requires prudent ==> forall a :: a in Retired(s.writes) && !a.started ==> a.id !in grown
    ensures Tidy(s', prudent) && KeepsCustody(s, s')
  {
    hide HolderOf, ViewOf, ActiveWrites;
    forall a | Queueing(s', a) ensures Queueing(s, a) { }
    forall a | prudent && a in Retired(s'.writes) && !a.started
      ensures a.id !in ViewOf(s'.routes)
    {
      assert a.id !in ViewOf(s.routes);
    }
  }

  ghost predicate Down(s: State, s': State) {
    && s.child.Some? && s'.child.None? && ViewOf(s'.routes) == map[]
    && ActiveWrites(s'.writes) == ActiveWrites(s.writes)
    && s'.spawned == s.spawned && s'.deliveries == s.deliveries && s'.serials == s.serials
    && s.handshakeGeneration <= s'.handshakeGeneration
    && !s'.protocolQuarantined
  }

  lemma DownKeeps(s: State, s': State, prudent: bool)
    requires Tidy(s, prudent) && Down(s, s')
    ensures Tidy(s', prudent) && KeepsCustody(s, s')
  {
    hide HolderOf, ViewOf, ActiveWrites;
  }

  lemma TerminateIsDown(cfg: Config, s: State)
    requires ValidConfig(cfg) && StateOk(cfg, s) && s.child.Some? && (s.handshake.Answered? ==> s.closed)
    ensures Down(s, Terminate(s))
  {
    hide StateOk, Terminate, ActiveWrites, ViewOf;
    TerminateKeeps(cfg, s);
    TerminateWrites(s);
  }

  function Detached(s: State, id: RequestId, after: Handshake, t: Tombstone): State
    requires IsPending(s.routes, id)
  {
    var s1 := Detach(s, id, after);
    s1.(tombstones := s1.tombstones[id := t])
  }

  function TombstoneOf(s: State, id: RequestId): Tombstone
    requires IsPending(s.routes, id)
  {
    Tombstone(if id in s.routes.pendingResponses then Unary else Stream, PendingOf(s.routes, id).serial)
  }

  lemma ClearUnfolds(cfg: Config, s: State, id: RequestId, after: Handshake)
    requires IsPending(s.routes, id) && !s.protocolQuarantined
    ensures ClearPending(cfg, s, id, false, after) == Detach(s, id, after)
    ensures ClearPending(cfg, s, id, true, after)
         == if |s.tombstones| >= cfg.tombstoneLimit && id !in s.tombstones then Terminate(Detach(s, id, after))
            else Detached(s, id, after, TombstoneOf(s, id))
  {
    hide DropPending, FailAll, Retire, RecycleQuarantined;
  }

  /** A pending route's outcome with a tombstone passes its id on to the tombstone. */
  lemma ClearToTombstone(cfg: Config, s: State, id: RequestId, after: Handshake, prudent: bool)
    requires ValidConfig(cfg) && StateOk(cfg, s) && Tidy(s, prudent) && IsPending(s.routes, id) && after.Broken?
    ensures var s' := ClearPending(cfg, s, id, true, after);
      Steady(s, s', {}) || Down(s, s')
  {
    PendingFacts(s, id);
    hide StateOk, Terminate, ClearPending, Detach, Detached, Steady, Down, RoutesOk;
    var s1 := Detach(s, id, after);
    DetachKeeps(cfg, s, id, after);
    ClearUnfolds(cfg, s, id, after);
    DetachScalars(s, id, after);
    if |s.tombstones| >= cfg.tombstoneLimit && id !in s.tombstones {
      TerminateIsDown(cfg, s1);
      DownFromDetached(s, id, after);
    } else {
      TombstonedHolds(s, id, after, TombstoneOf(s, id));
    }
  }

  lemma DetachScalars(s: State, id: RequestId, after: Handshake)
    requires IsPending(s.routes, id)
    ensures Detach(s, id, after).child == s.child
    ensures after.Broken? && !s.handshake.Answered? ==> !Detach(s, id, after).handshake.Answered?
  {
  }

  lemma DownFromDetached(s: State, id: RequestId, after: Handshake)
    requires IsPending(s.routes, id) && s.child.Some? && Down(Detach(s, id, after), Terminate(Detach(s, id, after)))
    ensures Down(s, Terminate(Detach(s, id, after)))
  {
    hide Terminate, DropPending, ViewOf;
  }

  lemma TombstonedHolds(s: State, id: RequestId, after: Handshake, t: Tombstone)
    requires IsPending(s.routes, id) && IdOk(s.routes, id) && t.serial == PendingOf(s.routes, id).serial
    requires ViewOf(Detach(s, id, after).routes) == ViewOf(s.routes) - {id}
    requires id !in s.tombstones
    ensures Steady(s, Detached(s, id, after, t), {})
  {
    hide ViewOf;
  }

  lemma DetachHolders(s: State, id: RequestId, after: Handshake, x: RequestId)
    requires IsPending(s.routes, id) && IdOk(s.routes, id) && id !in s.tombstones
    ensures HolderOf(Detach(s, id, after), x) == if x == id then None else HolderOf(s, x)
  {
  }

  /** A pending route's outcome without a tombstone frees its id. */
  lemma ClearFrees(cfg: Config, s: State, id: RequestId, after: Handshake)
    requires ValidConfig(cfg) && StateOk(cfg, s) && !s.protocolQuarantined && IsPending(s.routes, id)
    requires after.Broken? || after.Answered?
    ensures ClearPending(cfg, s, id, false, after) == Detach(s, id, after)
    ensures forall x :: HolderOf(Detach(s, id, after), x) == if x == id then None else HolderOf(s, x)
    ensures ViewOf(Detach(s, id, after).routes) == ViewOf(s.routes) - {id}
  {
    PendingFacts(s, id);
    assert IdOk(s.routes, id);
    hide StateOk, ViewOf, ClearPending, Detach, HolderOf;
    ClearUnfolds(cfg, s, id, after);
    DetachKeeps(cfg, s, id, after);
    forall x
      ensures HolderOf(Detach(s, id, after), x) == if x == id then None else HolderOf(s, x)
    {
      DetachHolders(s, id, after, x);
    }
  }

  // ----- issuing

  /** A write was issued for `id`: it is held for the new serial, and the line is queued. */
  ghost predicate Issued(s: State, s': State, id: RequestId, kind: Kind, bytes: nat) {
    && s.child.Some? && s'.child == s.child && s'.spawned == s.spawned && s'.deliveries == s.deliveries
    && s'.serials == s.serials + 1
    && s'.writes == Charge(s.writes, Admission(id, kind, s.serials, bytes, s.child.value, false))
    && s.handshakeGeneration <= s'.handshakeGeneration
    && s'.protocolQuarantined == s.protocolQuarantined
    && ViewOf(s'.routes).Keys <= ViewOf(s.routes).Keys + {id}
    && HolderOf(s, id).None? && HolderOf(s', id) == Some(s.serials)
    && (forall x :: x != id ==> HolderOf(s', x) == HolderOf(s, x))
  }

  lemma IssuedKeeps(s: State, s': State, id: RequestId, kind: Kind, bytes: nat, prudent: bool)
    requires Tidy(s, prudent) && Issued(s, s', id, kind, bytes)
    requires prudent ==> forall a :: a in Retired(s.writes) && !a.started ==> a.id != id
    requires id.Control? ==> id.number <= s'.handshakeGeneration
    ensures Tidy(s', prudent) && KeepsCustody(s, s')
  {
    hide HolderOf, ViewOf;
    forall a | Queueing(s', a)
      ensures a == Admission(id, kind, s.serials, bytes, s.child.value, false) || (Queueing(s, a) && a.id != id)
    {
      assert Queueing(s, a) ==> HolderOf(s, a.id) == Some(a.serial);
    }
    forall a | prudent && a in Retired(s'.writes) && !a.started
      ensures a.id !in ViewOf(s'.routes)
    {
      assert a.id !in ViewOf(s.routes);
    }
  }

  /** Issuing and being refused on the spot leaves custody as it was. */
  ghost predicate Refused(s: State, s': State, id: RequestId) {
    && s'.child == s.child && s'.spawned == s.spawned && s'.deliveries == s.deliveries
    && s'.serials == s.serials + 1 && s'.writes == s.writes
    && s.handshakeGeneration <= s'.handshakeGeneration
    && s'.protocolQuarantined == s.protocolQuarantined
    && ViewOf(s'.routes).Keys <= ViewOf(s.routes).Keys
    && (forall x :: HolderOf(s', x) == HolderOf(s, x))
  }

  lemma RefusedKeeps(s: State, s': State, id: RequestId, prudent: bool)
    requires Tidy(s, prudent) && Refused(s, s', id)
    ensures Tidy(s', prudent) && KeepsCustody(s, s')
  {
    hide HolderOf, ViewOf;
    forall a | Queueing(s', a) ensures Queueing(s, a) { }
    forall a | prudent && a in Retired(s'.writes) && !a.started
      ensures a.id !in ViewOf(s'.routes)
    {
      assert a.id !in ViewOf(s.routes);
    }
  }

  /** The route is in its pending table and its write is about to be submitted. */
  ghost predicate Held(s: State, s1: State, id: RequestId) {
    && s.child.Some? && s1.child == s.child && s1.spawned == s.spawned && s1.deliveries == s.deliveries
    && s1.serials == s.serials + 1 && s1.writes == s.writes
    && s.handshakeGeneration <= s1.handshakeGeneration
    && s1.protocolQuarantined == s.protocolQuarantined
    && ViewOf(s1.routes).Keys <= ViewOf(s.routes).Keys + {id}
    && HolderOf(s, id).None?
    && (forall x :: HolderOf(s1, x) == if x == id then Some(s.serials) else HolderOf(s, x))
  }

  lemma SubmitCustody(cfg: Config, s: State, s1: State, id: RequestId, kind: Kind, line: Line)
    requires ValidConfig(cfg) && StateOk(cfg, s1) && !s.protocolQuarantined
    requires IsPending(s1.routes, id) && Held(s, s1, id)
    ensures var s' := Submit(cfg, s1, id, kind, line, s.serials);
      Issued(s, s', id, kind, line.bytes) || Refused(s, s', id)
  {
    if !CanWrite(cfg, s1, line) {
      ClearFrees(cfg, s1, id, Broken(false));
      DetachedRefused(s, s1, id);
      hide StateOk, Detach, HolderOf, ViewOf, Refused, ClearPending;
    } else {
      hide StateOk, HolderOf, ViewOf;
      var a := Admission(id, kind, s.serials, line.bytes, s1.child.value, false);
      ChargedIssued(s, s1, id, a);
    }
  }

  lemma ChargedIssued(s: State, s1: State, id: RequestId, a: Admission)
    requires Held(s, s1, id) && a == Admission(id, a.kind, s.serials, a.bytes, s.child.value, false)
    ensures Issued(s, s1.(writes := Charge(s1.writes, a)), id, a.kind, a.bytes)
  {
    var s' := s1.(writes := Charge(s1.writes, a));
    assert forall x :: HolderOf(s', x) == HolderOf(s1, x);
  }

  lemma DetachedRefused(s: State, s1: State, id: RequestId)
    requires IsPending(s1.routes, id) && Held(s, s1, id)
    requires forall x :: HolderOf(Detach(s1, id, Broken(false)), x) == if x == id then None else HolderOf(s1, x)
    requires ViewOf(Detach(s1, id, Broken(false)).routes) == ViewOf(s1.routes) - {id}
    ensures Refused(s, Detach(s1, id, Broken(false)), id)
  {
    hide HolderOf, ViewOf, DropPending;
  }

  lemma LaunchHolders(s: State, id: RequestId, slot: bool, x: RequestId)
    requires IsWaiting(s.routes, id) && s.child.Some? && IdOk(s.routes, id) && id !in s.tombstones
    ensures HolderOf(s, id).None?
    ensures HolderOf(Launched(s, id, slot), x) == if x == id then Some(s.serials) else HolderOf(s, x)
  {
  }

  lemma WaitingIdFacts(cfg: Config, s: State, id: RequestId)
    requires StateOk(cfg, s) && IsWaiting(s.routes, id)
    ensures IdOk(s.routes, id) && id !in s.tombstones && id in ViewOf(s.routes)
  {
    WaitingFacts(s, id);
  }

  lemma LaunchedView(cfg: Config, s: State, id: RequestId, slot: bool)
    requires StateOk(cfg, s) && IsWaiting(s.routes, id) && s.child.Some?
    requires if slot then SlotWanted(s.routes) && s.routes.calls[s.routes.slots[0]] == id
             else WaitingOf(s.routes, id).phase != AwaitingSlot
    ensures ViewOf(Launched(s, id, slot).routes).Keys == ViewOf(s.routes).Keys
  {
    LaunchKeeps(s.routes, id, s.serials, s.child.value, slot);
    WaitingFacts(s, id);
  }

  lemma LaunchedHeld(cfg: Config, s: State, id: RequestId, slot: bool)
    requires ValidConfig(cfg) && StateOk(cfg, s) && IsWaiting(s.routes, id) && s.child.Some?
    requires ViewOf(Launched(s, id, slot).routes).Keys == ViewOf(s.routes).Keys
    ensures Held(s, Launched(s, id, slot), id) && IsPending(Launched(s, id, slot).routes, id)
  {
    hide StateOk, ViewOf, HolderOf, Launch;
    WaitingIdFacts(cfg, s, id);
    LaunchHolders(s, id, slot, id);
    forall x
      ensures HolderOf(Launched(s, id, slot), x) == if x == id then Some(s.serials) else HolderOf(s, x)
    {
      LaunchHolders(s, id, slot, x);
    }
    LaunchedPends(s, id, slot);
  }

  lemma LaunchedPends(s: State, id: RequestId, slot: bool)
    requires IsWaiting(s.routes, id) && s.child.Some?
    ensures IsPending(Launched(s, id, slot).routes, id)
  {
  }

  lemma IssueCustody(cfg: Config, s: State, id: RequestId, slot: bool, prudent: bool)
    requires ValidConfig(cfg) && StateOk(cfg, s) && Tidy(s, prudent) && IsWaiting(s.routes, id) && CanIssue(s)
    requires IsWorking(s.handshakeState) && (slot <==> IsSingleFlight(s.handshakeState))
    requires if slot then SlotWanted(s.routes) && s.routes.calls[s.routes.slots[0]] == id
             else WaitingOf(s.routes, id).phase != AwaitingSlot
    ensures Tidy(Issue(cfg, s, id, slot), prudent) && KeepsCustody(s, Issue(cfg, s, id, slot))
  {
    LaunchedView(cfg, s, id, slot);
    hide StateOk, RoutesOk, ViewOf, HolderOf, Submit, Launch, Tidy, KeepsCustody;
    WaitingIdFacts(cfg, s, id);
    LaunchedKeeps(cfg, s, id, slot);
    LaunchedHeld(cfg, s, id, slot);
    var kind := if id in s.routes.waitingRequests then Unary else Stream;
    var line := WaitingOf(s.routes, id).line;
    var s1 := Launched(s, id, slot);
    NotQuarantined(s, prudent);
    SubmitCustody(cfg, s, s1, id, kind, line);
    var s' := Submit(cfg, s1, id, kind, line, s.serials);
    if Issued(s, s', id, kind, line.bytes) {
      LiveIsNotStale(s, id, prudent);
      IssuedKeeps(s, s', id, kind, line.bytes, prudent);
    } else {
      RefusedKeeps(s, s', id, prudent);
    }
  }

  lemma NotQuarantined(s: State, prudent: bool)
    requires Tidy(s, prudent)
    ensures !s.protocolQuarantined
  {
  }

  lemma LiveIsNotStale(s: State, id: RequestId, prudent: bool)
    requires Tidy(s, prudent) && id in ViewOf(s.routes)
    ensures prudent ==> forall a :: a in Retired(s.writes) && !a.started ==> a.id != id
  {
  }

  /** A step that touches neither a pending table, a tombstone nor a write. */
  lemma WaitingChangeKeeps(s: State, s': State, grown: set<RequestId>, prudent: bool)
    requires Tidy(s, prudent)
    requires s'.child == s.child && s'.spawned == s.spawned && s'.deliveries == s.deliveries
    requires s'.serials == s.serials && s'.writes == s.writes && s.handshakeGeneration <= s'.handshakeGeneration
    requires s'.protocolQuarantined == s.protocolQuarantined && s'.tombstones == s.tombstones
    requires s'.routes.pendingResponses == s.routes.pendingResponses
    requires s'.routes.pendingStreams == s.routes.pendingStreams
    requires ViewOf(s'.routes).Keys <= ViewOf(s.routes).Keys + grown
    requires prudent ==> forall a :: a in Retired(s.writes) && !a.started ==> a.id !in grown
    ensures Tidy(s', prudent) && KeepsCustody(s, s')
  {
    hide ViewOf;
    assert forall x :: HolderOf(s', x) == HolderOf(s, x);
    SteadyKeeps(s, s', grown, prudent);
  }

  lemma RejectWaitingCustody(cfg: Config, s: State, id: RequestId, granted: bool, prudent: bool)
    requires ValidConfig(cfg) && StateOk(cfg, s) && Tidy(s, prudent) && IsWaiting(s.routes, id)
    ensures Tidy(RejectWaiting(s, id, granted), prudent) && KeepsCustody(s, RejectWaiting(s, id, granted))
  {
    DropWaitingKeeps(s.routes, id, granted);
    hide StateOk, ViewOf, Tidy, KeepsCustody, RoutesOk;
    WaitingChangeKeeps(s, RejectWaiting(s, id, granted), {}, prudent);
  }

  lemma SetPhaseCustody(cfg: Config, s: State, id: RequestId, phase: WaitPhase, prudent: bool)
    requires ValidConfig(cfg) && StateOk(cfg, s) && Tidy(s, prudent) && IsWaiting(s.routes, id)
    requires WaitingOf(s.routes, id).phase != AwaitingSlot && phase != AwaitingSlot && phase != Deferred
    ensures var s' := s.(routes := SetPhase(s.routes, id, phase)); Tidy(s', prudent) && KeepsCustody(s, s')
  {
    SetPhaseKeeps(s.routes, id, phase);
    WaitingFacts(s, id);
    hide StateOk, ViewOf, Tidy, KeepsCustody, RoutesOk;
    WaitingChangeKeeps(s, s.(routes := SetPhase(s.routes, id, phase)), {}, prudent);
  }

  lemma GrantCustody(cfg: Config, s: State, prudent: bool)
    requires ValidConfig(cfg) && StateOk(cfg, s) && Tidy(s, prudent) && Enabled(s, GrantStep)
    ensures Tidy(Grant(cfg, s), prudent) && KeepsCustody(s, Grant(cfg, s))
  {
    if !SlotWanted(s.routes) {
      SkipSlotKeeps(s.routes);
      hide StateOk, ViewOf, Tidy, KeepsCustody, RoutesOk;
      WaitingChangeKeeps(s, s.(routes := SkipSlot(s.routes)), {}, prudent);
    } else {
      var id := s.routes.calls[s.routes.slots[0]];
      WaitingFacts(s, id);
      hide StateOk, ViewOf, Tidy, KeepsCustody, RoutesOk, Issue, RejectWaiting;
      if (id in s.routes.waitingRequests || CanPromote(cfg, s, id)) && CanIssue(s) {
        IssueCustody(cfg, s, id, true, prudent);
      } else {
        RejectWaitingCustody(cfg, s, id, true, prudent);
      }
    }
  }

  lemma AcquireSlotCustody(cfg: Config, s: State, id: RequestId, prudent: bool)
    requires ValidConfig(cfg) && StateOk(cfg, s) && Tidy(s, prudent) && IsWaiting(s.routes, id)
    requires WaitingOf(s.routes, id).phase != AwaitingSlot
    ensures var s' := s.(routes := AcquireSlot(s.routes, id)); Tidy(s', prudent) && KeepsCustody(s, s')
  {
    AcquireSlotKeeps(s.routes, id);
    WaitingFacts(s, id);
    hide StateOk, ViewOf, Tidy, KeepsCustody, RoutesOk;
    WaitingChangeKeeps(s, s.(routes := AcquireSlot(s.routes, id)), {}, prudent);
  }

  lemma ResumeCustody(cfg: Config, s: State, id: RequestId, prudent: bool)
    requires ValidConfig(cfg) && StateOk(cfg, s) && Tidy(s, prudent) && Enabled(s, ResumeStep(id))
    ensures Tidy(Resume(cfg, s, id), prudent) && KeepsCustody(s, Resume(cfg, s, id))
  {
    var unary := id in s.routes.waitingRequests;
    WaitingFacts(s, id);
    hide StateOk, ViewOf, Tidy, KeepsCustody, Issue, RejectWaiting, AcquireSlot;
    if !WaitingOf(s.routes, id).phase.ok || (unary && !CanPromote(cfg, s, id)) {
      RejectWaitingCustody(cfg, s, id, false, prudent);
    } else if IsSingleFlight(s.handshakeState) {
      AcquireSlotCustody(cfg, s, id, prudent);
    } else if (unary || CanPromote(cfg, s, id)) && CanIssue(s) {
      IssueCustody(cfg, s, id, false, prudent);
    } else {
      RejectWaitingCustody(cfg, s, id, false, prudent);
    }
  }

  // ----- handshake

  lemma ProbeIsFree(cfg: Config, s: State, prudent: bool)
    requires ValidConfig(cfg) && StateOk(cfg, s) && Tidy(s, prudent)
    requires s.handshakeState == Unknown && !s.handshake.Probing?
    ensures HolderOf(s, ControlId(s)).None?
    ensures forall a :: a in Retired(s.writes) && !a.started ==> a.id != ControlId(s)
  {
    var id := ControlId(s);
    ViewFits(s.routes, id);
    assert id in ViewOf(s.routes) ==> LiveOk(s, id, ViewOf(s.routes)[id]);
    assert forall a :: a in Retired(s.writes) ==> a in ActiveWrites(s.writes);
  }

  lemma ProbedHolders(s: State, stage: Stage, x: RequestId)
    requires s.child.Some? && HolderOf(s, ControlId(s)).None?
    ensures HolderOf(Probed(s, stage), x) == if x == ControlId(s) then Some(s.serials) else HolderOf(s, x)
    ensures IsPending(Probed(s, stage).routes, ControlId(s))
  {
  }

  lemma ProbedHeld(cfg: Config, s: State, stage: Stage)
    requires ValidConfig(cfg) && StateOk(cfg, s) && s.child.Some? && HolderOf(s, ControlId(s)).None?
    requires s.handshakeState == Unknown && !s.handshake.Probing?
    requires IsFreeId(s, ControlId(s), true)
    ensures Held(s, Probed(s, stage), ControlId(s)) && IsPending(Probed(s, stage).routes, ControlId(s))
  {
    hide StateOk, ViewOf, HolderOf, Probed, IsFreeId;
    var id := ControlId(s);
    ProbedView(cfg, s, stage);
    ProbedHolders(s, stage, id);
    ProbedFields(s, stage);
    forall x
      ensures HolderOf(Probed(s, stage), x) == if x == id then Some(s.serials) else HolderOf(s, x)
    {
      ProbedHolders(s, stage, x);
    }
  }

  lemma ProbedView(cfg: Config, s: State, stage: Stage)
    requires StateOk(cfg, s) && s.child.Some? && s.handshakeState == Unknown && !s.handshake.Probing?
    requires IsFreeId(s, ControlId(s), true)
    ensures ViewOf(Probed(s, stage).routes).Keys <= ViewOf(s.routes).Keys + {ControlId(s)}
  {
    ViewFits(s.routes, ControlId(s));
    OpenControlKeeps(s.routes, ControlId(s), s.serials, s.child.value);
    hide StateOk, ViewOf, RoutesOk;
  }

  lemma ProbedFields(s: State, stage: Stage)
    requires s.child.Some?
    ensures var s1 := Probed(s, stage);
      && s1.child == s.child && s1.spawned == s.spawned && s1.deliveries == s.deliveries
      && s1.serials == s.serials + 1 && s1.writes == s.writes
      && s.handshakeGeneration <= s1.handshakeGeneration && s1.protocolQuarantined == s.protocolQuarantined
  {
  }

  lemma ProbeCustody(cfg: Config, s: State, stage: Stage, prudent: bool)
    requires ValidConfig(cfg) && StateOk(cfg, s) && Tidy(s, prudent)
    requires s.handshakeState == Unknown && !s.handshake.Probing? && (s.child.Some? || s.closed)
    ensures Tidy(Probe(cfg, s, stage).0, prudent) && KeepsCustody(s, Probe(cfg, s, stage).0)
    ensures Probe(cfg, s, stage).0.child == s.child && Probe(cfg, s, stage).0.spawned == s.spawned
  {
    NotQuarantined(s, prudent);
    hide StateOk, ViewOf, Tidy, KeepsCustody, HolderOf, Submit, OpenControl, IsPending;
    ProbeFits(cfg, s);
    if s.closed {
      WaitingChangeKeeps(s, s.(handshakeGeneration := s.handshakeGeneration + 1), {}, prudent);
    } else {
      ProbeIsFree(cfg, s, prudent);
      ProbedHeld(cfg, s, stage);
      ProbedKeeps(cfg, s, stage);
      ProbedCustody(cfg, s, stage, prudent);
    }
  }

  lemma ProbedCustody(cfg: Config, s: State, stage: Stage, prudent: bool)
    requires ValidConfig(cfg) && Tidy(s, prudent) && !s.protocolQuarantined && s.child.Some?
    requires Held(s, Probed(s, stage), ControlId(s)) && IsPending(Probed(s, stage).routes, ControlId(s))
    requires StateOk(cfg, Probed(s, stage))
    requires forall a :: a in Retired(s.writes) && !a.started ==> a.id != ControlId(s)
    ensures var s' := Submit(cfg, Probed(s, stage), ControlId(s), Unary,
                             Line(if stage == Hello then cfg.helloBytes else cfg.probeBytes, true), s.serials);
      Tidy(s', prudent) && KeepsCustody(s, s') && s'.child == s.child && s'.spawned == s.spawned
  {
    hide StateOk, ViewOf, Tidy, KeepsCustody, HolderOf, Submit, OpenControl, IsPending;
    var id, s1 := ControlId(s), Probed(s, stage);
    var line := Line(if stage == Hello then cfg.helloBytes else cfg.probeBytes, true);
    SubmitCustody(cfg, s, s1, id, Unary, line);
    var s' := Submit(cfg, s1, id, Unary, line, s.serials);
    if Issued(s, s', id, Unary, line.bytes) {
      SubmitGeneration(cfg, s1, id, line, s.serials);
      IssuedKeeps(s, s', id, Unary, line.bytes, prudent);
    } else {
      RefusedKeeps(s, s', id, prudent);
    }
  }

  lemma SubmitGeneration(cfg: Config, s: State, id: RequestId, line: Line, serial: nat)
    requires IsPending(s.routes, id) && !s.protocolQuarantined
    ensures Submit(cfg, s, id, Unary, line, serial).handshakeGeneration == s.handshakeGeneration
  {
    hide DropPending, Charge;
  }

  /** A new child starts with nothing queued and no id held. */
  lemma SpawnCustody(cfg: Config, s: State, prudent: bool)
    requires ValidConfig(cfg) && StateOk(cfg, s) && Tidy(s, prudent)
    requires s.child.None? && !s.closed && s.handshakeState == Unknown && s.handshake.NoHandshake? && !s.writes.recycleBlocked
    ensures Tidy(Spawn(s), prudent)
  {
    SpawnStateKeeps(cfg, s);
    assert s.writes.tail == [];
    hide StateOk, ViewOf, HolderOf;
  }

  lemma AfterSpawn(s: State, s0: State, s1: State)
    requires s.child.None? && s0 == Spawn(s) && KeepsCustody(s0, s1) && s1.child == s0.child && s1.spawned == s0.spawned
    ensures KeepsCustody(s, s1)
  {
  }

  lemma EnsureHandshakeCustody(cfg: Config, s: State, prudent: bool)
    requires ValidConfig(cfg) && StateOk(cfg, s) && Tidy(s, prudent)
    ensures Tidy(EnsureHandshake(cfg, s).0, prudent) && KeepsCustody(s, EnsureHandshake(cfg, s).0)
  {
    if !s.closed && s.handshakeState == Unknown && s.handshake.NoHandshake? && !s.writes.recycleBlocked {
      var s0 := if s.child.None? then Spawn(s) else s;
      if s.child.None? {
        SpawnStateKeeps(cfg, s);
        SpawnCustody(cfg, s, prudent);
      }
      hide StateOk, Tidy, KeepsCustody, Probe;
      ProbeCustody(cfg, s0, Hello, prudent);
      if s.child.None? {
        AfterSpawn(s, s0, Probe(cfg, s0, Hello).0);
      }
    } else {
      hide StateOk, HolderOf, ViewOf;
    }
  }

  /** States that agree on everything custody speaks about. */
  ghost predicate Alike(s: State, s1: State) {
    && s1.child == s.child && s1.spawned == s.spawned && s1.deliveries == s.deliveries
    && s1.serials == s.serials && s1.writes == s.writes
    && s1.routes.pendingResponses == s.routes.pendingResponses
    && s1.routes.pendingStreams == s.routes.pendingStreams && s1.tombstones == s.tombstones
  }

  lemma AlikeBefore(s: State, s1: State, s2: State)
    requires Alike(s, s1) && KeepsCustody(s1, s2)
    ensures KeepsCustody(s, s2)
  {
    assert forall x :: HolderOf(s1, x) == HolderOf(s, x);
    hide HolderOf;
    assert forall a :: Queueing(s1, a) <==> Queueing(s, a);
  }

  lemma AlikeAfter(s: State, s1: State, s2: State)
    requires KeepsCustody(s, s1) && Alike(s1, s2)
    ensures KeepsCustody(s, s2)
  {
    assert forall x :: HolderOf(s2, x) == HolderOf(s1, x);
    hide HolderOf;
    assert forall a :: Queueing(s1, a) <==> Queueing(s2, a);
  }

  lemma AfterEnsureCustody(cfg: Config, s: State, v: Verdict, id: RequestId, prudent: bool)
    requires ValidConfig(cfg) && StateOk(cfg, s) && Tidy(s, prudent) && IsWaiting(s.routes, id)
    requires WaitingOf(s.routes, id).phase != AwaitingSlot
    ensures Tidy(AfterEnsure(s, v, id), prudent) && Alike(s, AfterEnsure(s, v, id))
  {
    hide StateOk, Tidy, KeepsCustody, Alike, RejectWaiting, SetPhase;
    AfterEnsureAlike(s, v, id);
    match v
    case Resolved => SetPhaseCustody(cfg, s, id, Released(true), prudent);
    case Rejected => RejectWaitingCustody(cfg, s, id, false, prudent);
    case Awaited => SetPhaseCustody(cfg, s, id, AwaitingHandshake, prudent);
  }

  lemma AfterEnsureAlike(s: State, v: Verdict, id: RequestId)
    requires IsWaiting(s.routes, id)
    ensures Alike(s, AfterEnsure(s, v, id))
  {
  }

  lemma OpenCustody(cfg: Config, s: State, kind: Kind, id: RequestId, line: Line, prudent: bool)
    requires ValidConfig(cfg) && StateOk(cfg, s) && Tidy(s, prudent)
    requires IsFreeId(s, id, false) && HasCapacity(cfg, s, false)
    requires prudent ==> forall a :: a in Retired(s.writes) && !a.started ==> a.id != id
    ensures var s1 := s.(routes := Open(s.routes, kind, id, line)); Tidy(s1, prudent) && KeepsCustody(s, s1) && Alike(s, s1)
  {
    ViewFits(s.routes, id);
    OpenKeeps(s.routes, kind, id, line);
    hide StateOk, ViewOf, Tidy, KeepsCustody, RoutesOk;
    WaitingChangeKeeps(s, s.(routes := Open(s.routes, kind, id, line)), {id}, prudent);
  }

  lemma RequestCustody(cfg: Config, s: State, id: RequestId, line: Line, prudent: bool)
    requires ValidConfig(cfg) && StateOk(cfg, s) && Tidy(s, prudent) && (prudent ==> Prudent(s, RequestStep(id, line)))
    ensures Tidy(Request(cfg, s, id, line), prudent) && KeepsCustody(s, Request(cfg, s, id, line))
  {
    if IsFreeId(s, id, false) && HasCapacity(cfg, s, false) {
      var s1 := s.(routes := Open(s.routes, Unary, id, line));
      OpenCustody(cfg, s, Unary, id, line, prudent);
      OpenStateKeeps(cfg, s, Unary, id, line);
      hide StateOk, Tidy, KeepsCustody, EnsureHandshake, AfterEnsure;
      EnsureHandshakeKeeps(cfg, s1);
      EnsureHandshakeCustody(cfg, s1, prudent);
      var (s2, v) := EnsureHandshake(cfg, s1);
      AfterEnsureCustody(cfg, s2, v, id, prudent);
      AlikeBefore(s, s1, s2);
      AlikeAfter(s, s2, AfterEnsure(s2, v, id));
    } else {
      hide StateOk, HolderOf, ViewOf;
    }
  }

  lemma StreamHandshakeCustody(cfg: Config, s: State, id: RequestId, prudent: bool)
    requires ValidConfig(cfg) && StateOk(cfg, s) && Tidy(s, prudent) && Enabled(s, StreamHandshakeStep(id))
    ensures Tidy(StreamHandshake(cfg, s, id), prudent) && KeepsCustody(s, StreamHandshake(cfg, s, id))
  {
    EnsureHandshakeKeeps(cfg, s);
    EnsureHandshakeCustody(cfg, s, prudent);
    var (s1, v) := EnsureHandshake(cfg, s);
    assert IdOk(s.routes, id) && IdOk(s1.routes, id);
    hide StateOk, Tidy, KeepsCustody, EnsureHandshake, AfterEnsure;
    AfterEnsureCustody(cfg, s1, v, id, prudent);
    AlikeAfter(s, s1, AfterEnsure(s1, v, id));
  }

  lemma ReleaseWaitersCustody(cfg: Config, s: State, h: HandshakeState, ok: bool, prudent: bool)
    requires ValidConfig(cfg) && StateOk(cfg, s) && Tidy(s, prudent) && MicrotaskDue(s)
    ensures var s1 := s.(handshakeState := h, handshake := NoHandshake, routes := ReleaseWaiters(s.routes, ok));
      Tidy(s1, prudent) && KeepsCustody(s, s1)
  {
    ReleaseWaitersKeeps(s.routes, ok);
    hide StateOk, ViewOf, Tidy, KeepsCustody, RoutesOk;
    WaitingChangeKeeps(s, s.(handshakeState := h, handshake := NoHandshake, routes := ReleaseWaiters(s.routes, ok)), {}, prudent);
  }

  lemma GiveUpCustody(cfg: Config, s: State, prudent: bool)
    requires ValidConfig(cfg) && StateOk(cfg, s) && Tidy(s, prudent) && MicrotaskDue(s)
    ensures Tidy(GiveUp(s), prudent) && KeepsCustody(s, GiveUp(s))
  {
    NotQuarantined(s, prudent);
    hide StateOk, Tidy, KeepsCustody, ReleaseWaiters;
    ReleaseWaitersCustody(cfg, s, Unknown, false, prudent);
  }

  lemma SucceedCustody(cfg: Config, s: State, h: HandshakeState, prudent: bool)
    requires ValidConfig(cfg) && StateOk(cfg, s) && Tidy(s, prudent) && s.handshake.Answered?
    ensures Tidy(Succeed(s, h), prudent) && KeepsCustody(s, Succeed(s, h))
  {
    ReleaseWaitersCustody(cfg, s, h, true, prudent);
    var s1 := s.(handshakeState := h, handshake := NoHandshake, routes := ReleaseWaiters(s.routes, true));
    NotQuarantined(s, prudent);
    assert Succeed(s, h) == s1.(negotiated := Succeed(s, h).negotiated) by { hide ReleaseWaiters; }
    hide StateOk, ReleaseWaiters, Succeed;
    WaitingChangeKeeps(s1, Succeed(s, h), {}, prudent);
    AlikeAfter(s, s1, Succeed(s, h));
  }

  lemma BlockCustody(cfg: Config, s: State, prudent: bool)
    requires ValidConfig(cfg) && StateOk(cfg, s) && Tidy(s, prudent) && MicrotaskDue(s)
    ensures Tidy(Block(s), prudent) && KeepsCustody(s, Block(s))
  {
    var s0 := s.(handshake := NoHandshake);
    QuietKeeps(cfg, s);
    BlockFromQuiet(s);
    assert Tidy(s0, prudent) && Alike(s, s0) by { hide StateOk, ViewOf, HolderOf; AlikeTidy(s, s0, prudent); }
    hide StateOk, Tidy, KeepsCustody, Terminate, Block;
    TerminateCustody(cfg, s0, prudent);
    var s1 := Terminate(s0);
    AlikeTidy(s1, s1.(handshakeState := Blocked), prudent);
    AlikeBefore(s, s0, s1);
    AlikeAfter(s, s1, s1.(handshakeState := Blocked));
  }

  lemma AlikeTidy(s: State, s1: State, prudent: bool)
    requires Tidy(s, prudent) && Alike(s, s1) && ViewOf(s1.routes) == ViewOf(s.routes)
    requires s1.handshakeGeneration == s.handshakeGeneration && s1.protocolQuarantined == s.protocolQuarantined
    ensures Tidy(s1, prudent)
  {
    assert forall x :: HolderOf(s1, x) == HolderOf(s, x);
    hide HolderOf, ViewOf;
    assert forall a :: Queueing(s1, a) <==> Queueing(s, a);
  }

  lemma BlockFromQuiet(s: State)
    requires !s.protocolQuarantined
    ensures Block(s) == Terminate(s.(handshake := NoHandshake)).(handshakeState := Blocked)
  {
    hide FailAll, Retire;
  }

  lemma NextProbeCustody(cfg: Config, s: State, stage: Stage, prudent: bool)
    requires ValidConfig(cfg) && StateOk(cfg, s) && Tidy(s, prudent) && s.handshake.Answered?
    ensures Tidy(NextProbe(cfg, s, stage), prudent) && KeepsCustody(s, NextProbe(cfg, s, stage))
  {
    ProbeKeeps(cfg, s, stage);
    ProbeSpares(cfg, s, stage);
    ProbeCustody(cfg, s, stage, prudent);
    NotQuarantined(s, prudent);
    var (s1, started) := Probe(cfg, s, stage);
    ProbeAborts(cfg, s, stage);
    hide StateOk, Tidy, KeepsCustody, Probe, GiveUp;
    if !started {
      GiveUpCustody(cfg, s1, prudent);
      AlikeBefore(s, s1, GiveUp(s1));
    }
  }

  lemma ProbeAborts(cfg: Config, s: State, stage: Stage)
    ensures !Probe(cfg, s, stage).1 ==> Alike(s, Probe(cfg, s, stage).0)
  {
    hide Submit, OpenControl;
  }

  lemma ContinueCustody(cfg: Config, s: State, prudent: bool)
    requires ValidConfig(cfg) && StateOk(cfg, s) && Tidy(s, prudent) && MicrotaskDue(s)
    ensures Tidy(ContinueHandshake(cfg, s), prudent) && KeepsCustody(s, ContinueHandshake(cfg, s))
  {
    hide StateOk, Tidy, KeepsCustody, Succeed, GiveUp, Block, NextProbe;
    match s.handshake
    case Answered(stage, reply) =>
      SucceedCustody(cfg, s, Ready, prudent);
      SucceedCustody(cfg, s, SingleFlight, prudent);
      SucceedCustody(cfg, s, Legacy, prudent);
      BlockCustody(cfg, s, prudent);
      GiveUpCustody(cfg, s, prudent);
      NextProbeCustody(cfg, s, LegacyVersion, prudent);
      if reply.Result? {
        NextProbeCustody(cfg, s, LegacyCapabilities(reply.compatible), prudent);
      }
    case Broken(rejected) =>
      BlockCustody(cfg, s, prudent);
      GiveUpCustody(cfg, s, prudent);
  }

  // ----- cancellation, timers and teardown

  lemma DownThenTerminate(s: State, s1: State)
    requires Down(s, s1)
    ensures Terminate(s1).child.None? && Down(s, Terminate(s1))
  {
    assert ViewOf(FailAll(s1.routes)) == map[];
    hide FailAll;
  }

  lemma SteadyThenDown(s: State, s1: State, s2: State)
    requires Steady(s, s1, {}) && Down(s1, s2)
    ensures Down(s, s2)
  {
    hide HolderOf, ViewOf;
  }

  lemma ClearToTombstoneCustody(cfg: Config, s: State, id: RequestId, after: Handshake, prudent: bool)
    requires ValidConfig(cfg) && StateOk(cfg, s) && Tidy(s, prudent) && IsPending(s.routes, id) && after.Broken?
    ensures var s1 := ClearPending(cfg, s, id, true, after);
      && Tidy(s1, prudent) && KeepsCustody(s, s1) && Tidy(Terminate(s1), prudent) && KeepsCustody(s, Terminate(s1))
  {
    PendingMeansQuiet(s, id);
    hide StateOk, Tidy, KeepsCustody, Terminate, ClearPending, Steady, Down;
    var s1 := ClearPending(cfg, s, id, true, after);
    ClearToTombstone(cfg, s, id, after, prudent);
    if Down(s, s1) {
      DownKeeps(s, s1, prudent);
      DownThenTerminate(s, s1);
      DownKeeps(s, Terminate(s1), prudent);
    } else {
      SteadyKeeps(s, s1, {}, prudent);
      ClearPendingKeeps(cfg, s, id, true, after);
      ClearedIsNotAnswered(cfg, s, id, after);
      PendingHasChild(cfg, s, s1, id);
      TerminateIsDown(cfg, s1);
      SteadyThenDown(s, s1, Terminate(s1));
      DownKeeps(s, Terminate(s1), prudent);
    }
  }

  lemma PendingHasChild(cfg: Config, s: State, s1: State, id: RequestId)
    requires StateOk(cfg, s) && IsPending(s.routes, id) && Steady(s, s1, {})
    ensures s1.child.Some?
  {
    PendingFacts(s, id);
  }

  lemma CancelCustody(cfg: Config, s: State, id: RequestId, rejection: bool, prudent: bool)
    requires ValidConfig(cfg) && StateOk(cfg, s) && Tidy(s, prudent)
    ensures Tidy(Cancel(cfg, s, id, rejection), prudent) && KeepsCustody(s, Cancel(cfg, s, id, rejection))
  {
    if IsWaiting(s.routes, id) {
      hide StateOk, Tidy, KeepsCustody, RejectWaiting;
      RejectWaitingCustody(cfg, s, id, false, prudent);
    } else if IsPending(s.routes, id) {
      hide StateOk, Tidy, KeepsCustody, ClearPending, Terminate;
      ClearToTombstoneCustody(cfg, s, id, Broken(rejection), prudent);
    } else {
      hide StateOk, HolderOf, ViewOf;
    }
  }

  lemma CloseCustody(cfg: Config, s: State, prudent: bool)
    requires ValidConfig(cfg) && StateOk(cfg, s) && Tidy(s, prudent)
    ensures Tidy(Close(s), prudent) && KeepsCustody(s, Close(s))
  {
    var s0 := s.(closed := true);
    assert Tidy(s0, prudent) && Alike(s, s0) by { hide StateOk, ViewOf, HolderOf; AlikeTidy(s, s0, prudent); }
    if s.child.None? {
      forall x ensures HolderOf(s, x).None? { NobodyHeld(cfg, s, x); }
    }
    FailAllKeeps(s.routes);
    hide StateOk, HolderOf, Terminate, Tidy, RoutesOk;
    TerminateWrites(s0);
    ClosedView(s0);
    if s.child.Some? {
      DownKeeps(s, Close(s), prudent);
    } else {
      NothingLeft(s, Close(s), prudent);
    }
  }

  lemma ClosedView(s: State)
    requires ViewOf(FailAll(s.routes)) == map[]
    ensures ViewOf(Terminate(s).routes) == map[]
  {
    hide FailAll, Retire, ViewOf;
  }

  lemma NothingLeft(s: State, s': State, prudent: bool)
    requires Tidy(s, prudent) && s.child.None? && s'.child.None? && ViewOf(s'.routes) == map[]
    requires s'.writes == s.writes && s'.handshakeGeneration == s.handshakeGeneration
    requires s'.serials == s.serials && s'.spawned == s.spawned && s'.deliveries == s.deliveries
    requires s'.protocolQuarantined == s.protocolQuarantined
    requires forall x :: HolderOf(s, x).None?
    ensures Tidy(s', prudent) && KeepsCustody(s, s')
  {
    hide HolderOf, ViewOf;
    assert forall a :: Queueing(s', a) <==> Queueing(s, a);
  }

  // ----- writes

  lemma ThenCustody(s: State, s1: State, s2: State)
    requires KeepsCustody(s, s1) && KeepsCustody(s1, s2)
    requires s1.child == s.child && s1.serials == s.serials && s1.spawned == s.spawned
    ensures KeepsCustody(s, s2)
  {
    hide HolderOf;
    if s2.child == s.child {
      forall a | Queueing(s2, a) ensures Queueing(s, a) || s.serials <= a.serial {
        assert Queueing(s1, a) || s1.serials <= a.serial;
      }
    }
  }

  /** Changing only the write chains, without adding to them. */
  lemma WritesChangeCustody(s: State, w: Writes, prudent: bool)
    requires Tidy(s, prudent)
    requires forall a :: a in w.tail && !a.started ==> a in s.writes.tail
    requires forall a :: a in Retired(w) && !a.started ==> a in Retired(s.writes)
    requires forall a :: a in ActiveWrites(w) && a.id.Control? ==> a.id.number <= s.handshakeGeneration
    ensures var s' := s.(writes := w); Tidy(s', prudent) && KeepsCustody(s, s')
  {
    var s' := s.(writes := w);
    assert forall x :: HolderOf(s', x) == HolderOf(s, x);
    hide HolderOf, ViewOf, ActiveWrites;
    assert forall a :: Queueing(s', a) ==> Queueing(s, a);
    assert forall a :: Queueing(s', a) ==> HolderOf(s, a.id) == HolderOf(s', a.id);
  }

  lemma ReleaseCustody(s: State, retired: bool, prudent: bool)
    requires Tidy(s, prudent) && Chain(s.writes, retired) != []
    ensures var s' := s.(writes := Release(s.writes, retired)); Tidy(s', prudent) && KeepsCustody(s, s')
  {
    var w := Release(s.writes, retired);
    ReleaseShrinks(s.writes, retired);
    hide HolderOf, ViewOf, Release, Tidy, KeepsCustody;
    ControlNumbers(s, prudent);
    WritesChangeCustody(s, w, prudent);
  }

  lemma ControlNumbers(s: State, prudent: bool)
    requires Tidy(s, prudent)
    ensures forall a :: a in ActiveWrites(s.writes) && a.id.Control? ==> a.id.number <= s.handshakeGeneration
  {
  }

  lemma ReleaseShrinks(w: Writes, retired: bool)
    requires Chain(w, retired) != []
    ensures forall a :: a in Release(w, retired).tail ==> a in w.tail
    ensures forall a :: a in Retired(Release(w, retired)) ==> a in Retired(w)
    ensures forall a :: a in ActiveWrites(Release(w, retired)) ==> a in ActiveWrites(w)
  {
  }

  /** A line of the current child that may not start belongs to no pending route, so its
      failure settles nobody; for a retired child's line this is the guard. */
  lemma UnstartableIsOrphan(cfg: Config, s: State, retired: bool)
    requires ValidConfig(cfg) && StateOk(cfg, s) && !s.protocolQuarantined && Enabled(s, BeginWriteStep(retired))
    requires Harmless(s, BeginWriteStep(retired)) && !MayStart(s, Chain(s.writes, retired)[0])
    ensures !Hits(s, Chain(s.writes, retired)[0])
  {
    var a := Chain(s.writes, retired)[0];
    if !retired && IsPending(s.routes, a.id) {
      PendingFacts(s, a.id);
    }
  }

  /** A failure that hits nobody only releases the write. */
  lemma MissReleases(cfg: Config, s: State, retired: bool)
    requires Chain(s.writes, retired) != [] && !MayStart(s, Chain(s.writes, retired)[0])
    requires !Hits(s, Chain(s.writes, retired)[0])
    ensures BeginWrite(cfg, s, retired) == s.(writes := Release(s.writes, retired))
  {
    hide Release, ClearPending;
  }

  /** Prudent callers never run into the exact guard. */
  lemma PrudenceIsHarmless(s: State, step: Step)
    requires Tidy(s, true) && Enabled(s, step)
    ensures Harmless(s, step)
  {
    if step == BeginWriteStep(true) {
      assert Retired(s.writes)[0] in Retired(s.writes);
    }
  }

  lemma BeginWriteCustody(cfg: Config, s: State, retired: bool, prudent: bool)
    requires ValidConfig(cfg) && StateOk(cfg, s) && Tidy(s, prudent) && Enabled(s, BeginWriteStep(retired))
    requires Harmless(s, BeginWriteStep(retired))
    ensures Tidy(BeginWrite(cfg, s, retired), prudent) && KeepsCustody(s, BeginWrite(cfg, s, retired))
  {
    var a := Chain(s.writes, retired)[0];
    if MayStart(s, a) {
      BeginWriteStarts(cfg, s, retired);
      StartedChain(s);
      hide StateOk, HolderOf, ViewOf, Tidy, KeepsCustody, MarkStarted;
      ControlNumbers(s, prudent);
      var s1 := s.(writes := MarkStarted(s.writes, false));
      WritesChangeCustody(s, MarkStarted(s.writes, false), prudent);
      WaitingChangeKeeps(s1, BeginWrite(cfg, s, retired), {}, prudent);
      AlikeAfter(s, s1, BeginWrite(cfg, s, retired));
    } else {
      NotQuarantined(s, prudent);
      UnstartableIsOrphan(cfg, s, retired);
      MissReleases(cfg, s, retired);
      hide StateOk, HolderOf, ViewOf, Tidy, KeepsCustody, BeginWrite;
      ReleaseCustody(s, retired, prudent);
    }
  }

  lemma StartedChain(s: State)
    requires s.writes.tail != []
    ensures var w := MarkStarted(s.writes, false);
      && (forall a :: a in w.tail && !a.started ==> a in s.writes.tail)
      && Retired(w) == Retired(s.writes)
      && (forall a :: a in ActiveWrites(w) ==> exists b :: b in ActiveWrites(s.writes) && b.id == a.id)
  {
    var w := MarkStarted(s.writes, false);
    var head := s.writes.tail[0];
    assert s.writes.tail == [head] + s.writes.tail[1..];
    assert head in ActiveWrites(s.writes);
    forall a | a in ActiveWrites(w)
      ensures exists b :: b in ActiveWrites(s.writes) && b.id == a.id
    {
      assert a == head.(started := true) || a in ActiveWrites(s.writes);
    }
  }

  lemma KeepsItself(s: State)
    ensures KeepsCustody(s, s)
  {
    hide HolderOf;
  }

  lemma WriteFailedCustody(cfg: Config, s: State, a: Admission, prudent: bool)
    requires ValidConfig(cfg) && StateOk(cfg, s) && Tidy(s, prudent)
    ensures var s' := WriteRejected(cfg, s, a, true); Tidy(s', prudent) && KeepsCustody(s, s')
  {
    if IsPending(s.routes, a.id) {
      hide StateOk, Tidy, ClearPending;
      ClearToTombstoneCustody(cfg, s, a.id, Broken(false), prudent);
      KeepsItself(s);
    } else {
      hide StateOk, Tidy, HolderOf;
    }
  }

  lemma EndWriteCustody(cfg: Config, s: State, retired: bool, ok: bool, prudent: bool)
    requires ValidConfig(cfg) && StateOk(cfg, s) && Tidy(s, prudent) && Enabled(s, EndWriteStep(retired, ok))
    ensures Tidy(EndWrite(cfg, s, retired, ok), prudent) && KeepsCustody(s, EndWrite(cfg, s, retired, ok))
  {
    ReleasedKeeps(cfg, s, retired);
    hide StateOk, Tidy, KeepsCustody, Release, WriteRejected;
    var s1 := s.(writes := Release(s.writes, retired));
    ReleaseCustody(s, retired, prudent);
    if !ok {
      var a := Chain(s.writes, retired)[0];
      WriteFailedCustody(cfg, s1, a, prudent);
      ThenCustody(s, s1, WriteRejected(cfg, s1, a, true));
    }
  }

  lemma FinishRetiredCustody(s: State, prudent: bool)
    requires Tidy(s, prudent) && s.writes.retired == Some([])
    ensures var s' := s.(writes := FinishRetired(s.writes)); Tidy(s', prudent) && KeepsCustody(s, s')
  {
    assert ActiveWrites(FinishRetired(s.writes)) == ActiveWrites(s.writes);
    hide HolderOf, ViewOf, Tidy, KeepsCustody;
    ControlNumbers(s, prudent);
    WritesChangeCustody(s, FinishRetired(s.writes), prudent);
  }

  // ----- every step that consumes no frame

  predicate IsFrame(step: Step) {
    step.ResponseStep? || step.EventStep?
  }

  lemma CallCustody(cfg: Config, s: State, step: Step, prudent: bool)
    requires ValidConfig(cfg) && StateOk(cfg, s) && Tidy(s, prudent) && Enabled(s, step) && !IsIo(step)
    requires Harmless(s, step) && (prudent ==> Prudent(s, step))
    ensures Tidy(Next(cfg, s, step), prudent) && KeepsCustody(s, Next(cfg, s, step))
  {
    hide StateOk, Tidy, KeepsCustody, Request, StreamHandshake, Resume, Grant, ContinueHandshake, Cancel, Close;
    hide BeginWrite, FinishRetired, OpenStream;
    match step
    case RequestStep(id, line) => RequestCustody(cfg, s, id, line, prudent);
    case OpenStreamStep(id, line) => OpenStreamCustody(cfg, s, id, line, prudent);
    case StreamHandshakeStep(id) => StreamHandshakeCustody(cfg, s, id, prudent);
    case ResumeStep(id) => ResumeCustody(cfg, s, id, prudent);
    case GrantStep => GrantCustody(cfg, s, prudent);
    case ContinueStep => ContinueCustody(cfg, s, prudent);
    case CancelStep(id, rejection) => CancelCustody(cfg, s, id, rejection, prudent);
    case CloseStep => CloseCustody(cfg, s, prudent);
    case BeginWriteStep(retired) => BeginWriteCustody(cfg, s, retired, prudent);
    case FinishRetiredStep => FinishRetiredCustody(s, prudent);
  }

  lemma DeadlineCustody(cfg: Config, s: State, id: RequestId, prudent: bool)
    requires ValidConfig(cfg) && StateOk(cfg, s) && Tidy(s, prudent) && IsPending(s.routes, id)
    ensures Tidy(Deadline(cfg, s, id), prudent) && KeepsCustody(s, Deadline(cfg, s, id))
  {
    hide StateOk, Tidy, KeepsCustody, ClearPending, Terminate;
    ClearToTombstoneCustody(cfg, s, id, Broken(false), prudent);
  }

  lemma IoCustody(cfg: Config, s: State, step: Step, prudent: bool)
    requires ValidConfig(cfg) && StateOk(cfg, s) && Tidy(s, prudent) && Enabled(s, step) && IsIo(step) && !IsFrame(step)
    ensures Tidy(Next(cfg, s, step), prudent) && KeepsCustody(s, Next(cfg, s, step))
  {
    NotQuarantined(s, prudent);
    hide StateOk, Tidy, KeepsCustody, EndWrite, ClearPending, Terminate, Deadline, ViewOf;
    match step
    case DeadlineStep(id) => DeadlineCustody(cfg, s, id, prudent);
    case EndWriteStep(retired, ok) => EndWriteCustody(cfg, s, retired, ok, prudent);
    case TerminateStep => TerminateCustody(cfg, s, prudent);
    case QuarantineTimerStep =>
  }

  /** Every step that reads no frame: what is held stays held for its write. */
  lemma NextCustody(cfg: Config, s: State, step: Step, prudent: bool)
    requires ValidConfig(cfg) && StateOk(cfg, s) && Tidy(s, prudent) && Enabled(s, step) && !IsFrame(step)
    requires Harmless(s, step) && (prudent ==> Prudent(s, step))
    ensures Tidy(Next(cfg, s, step), prudent) && KeepsCustody(s, Next(cfg, s, step))
  {
    hide *;
    if IsIo(step) {
      IoCustody(cfg, s, step, prudent);
    } else {
      CallCustody(cfg, s, step, prudent);
    }
  }

  lemma OpenStreamCustody(cfg: Config, s: State, id: RequestId, line: Line, prudent: bool)
    requires ValidConfig(cfg) && StateOk(cfg, s) && Tidy(s, prudent) && (prudent ==> Prudent(s, OpenStreamStep(id, line)))
    ensures Tidy(OpenStream(cfg, s, id, line), prudent) && KeepsCustody(s, OpenStream(cfg, s, id, line))
  {
    if IsFreeId(s, id, false) && HasCapacity(cfg, s, false) {
      OpenCustody(cfg, s, Stream, id, line, prudent);
    } else {
      hide StateOk, HolderOf, ViewOf;
    }
  }

  // ----- frames

  ghost predicate Matched(s: State) {
    forall d :: d in s.deliveries ==> d.routeSerial == d.frameSerial && d.routeChild == d.frameChild
  }

  /** A frame for a held id settles the route that holds it, and only a terminal frame
      gives the id up. */
  ghost predicate Consumes(s: State, s': State, id: RequestId, terminal: bool) {
    && s.child.Some? && s'.child == s.child && s'.spawned == s.spawned
    && s'.serials == s.serials && s'.writes == s.writes
    && s.handshakeGeneration <= s'.handshakeGeneration && s'.protocolQuarantined == s.protocolQuarantined
    && ViewOf(s'.routes).Keys <= ViewOf(s.routes).Keys
    && (forall x :: HolderOf(s', x) == if terminal && x == id then None else HolderOf(s, x))
  }

  lemma ConsumesKeeps(s: State, s': State, id: RequestId, terminal: bool, prudent: bool)
    requires Tidy(s, prudent) && Consumes(s, s', id, terminal)
    requires forall a :: Queueing(s, a) ==> HolderOf(s, id) != Some(a.serial)
    ensures Tidy(s', prudent)
  {
    hide HolderOf, ViewOf;
    forall a | Queueing(s', a) ensures HolderOf(s', a.id) == Some(a.serial) {
      assert Queueing(s, a);
    }
    forall a | prudent && a in Retired(s'.writes) && !a.started
      ensures a.id !in ViewOf(s'.routes)
    {
      assert a.id !in ViewOf(s.routes);
    }
  }

  lemma DeliverMatches(cfg: Config, s: State, id: RequestId, serial: nat)
    requires ValidConfig(cfg) && StateOk(cfg, s) && Matched(s) && IsPending(s.routes, id) && s.child.Some?
    requires HolderOf(s, id) == Some(serial)
    ensures Matched(Deliver(s, id, serial)) && Alike2(s, Deliver(s, id, serial))
  {
    PendingFacts(s, id);
  }

  /** Agreement on all but the record of deliveries. */
  ghost predicate Alike2(s: State, s1: State) {
    s1.(deliveries := s.deliveries) == s
  }

  lemma ClearedConsumes(cfg: Config, s: State, id: RequestId, after: Handshake)
    requires ValidConfig(cfg) && StateOk(cfg, s) && !s.protocolQuarantined && IsPending(s.routes, id) && s.child.Some?
    requires after.Broken? || after.Answered?
    ensures var s' := ClearPending(cfg, s, id, false, after);
      Consumes(s, s', id, true) && s'.deliveries == s.deliveries
  {
    hide StateOk, HolderOf, ViewOf, Detach, ClearPending, DropPending;
    ClearFrees(cfg, s, id, after);
    DetachFields(s, id, after);
  }

  lemma AlikeConsumes(s: State, s0: State, s': State, id: RequestId)
    requires Alike2(s, s0) && Consumes(s0, s', id, true)
    ensures Consumes(s, s', id, true)
  {
    assert forall x :: HolderOf(s0, x) == HolderOf(s, x);
    hide HolderOf, ViewOf;
  }

  lemma DeliverThenClear(cfg: Config, s: State, id: RequestId, serial: nat, after: Handshake, prudent: bool)
    requires ValidConfig(cfg) && StateOk(cfg, s) && Tidy(s, prudent) && Matched(s) && IsPending(s.routes, id) && s.child.Some?
    requires after.Broken? || after.Answered?
    requires HolderOf(s, id) == Some(serial)
    ensures var s' := ClearPending(cfg, Deliver(s, id, serial), id, false, after);
      Matched(s') && Consumes(s, s', id, true)
  {
    NotQuarantined(s, prudent);
    hide StateOk, HolderOf, ViewOf, ClearPending, Consumes, Tidy;
    DeliverKeeps(cfg, s, id, serial);
    DeliverMatches(cfg, s, id, serial);
    var s0 := Deliver(s, id, serial);
    ClearedConsumes(cfg, s0, id, after);
    AlikeConsumes(s, s0, ClearPending(cfg, s0, id, false, after), id);
  }

  lemma FrameTerminates(cfg: Config, s: State)
    requires ValidConfig(cfg) && StateOk(cfg, s) && Matched(s) && s.child.Some? && !MicrotaskDue(s)
    ensures Matched(Terminate(s)) && Down(s, Terminate(s))
  {
    hide StateOk, Terminate, Down;
    TerminateWrites(s);
    TerminateIsDown(cfg, s);
  }

  lemma DetachFields(s: State, id: RequestId, after: Handshake)
    requires IsPending(s.routes, id)
    ensures Detach(s, id, after) == s.(routes := DropPending(s.routes, id), handshake := Detach(s, id, after).handshake)
  {
  }

  lemma DroppedTombstone(s: State, id: RequestId)
    requires id in s.tombstones && !IsPending(s.routes, id) && s.child.Some?
    ensures Consumes(s, s.(tombstones := s.tombstones - {id}), id, true)
  {
    var s' := s.(tombstones := s.tombstones - {id});
    forall x
      ensures HolderOf(s', x) == if x == id then None else HolderOf(s, x)
    {
    }
    hide HolderOf, ViewOf;
  }

  lemma ResponseCustody(cfg: Config, s: State, id: RequestId, reply: Reply, serial: nat, prudent: bool)
    requires ValidConfig(cfg) && StateOk(cfg, s) && Tidy(s, prudent) && Matched(s) && s.child.Some? && !MicrotaskDue(s)
    requires HolderOf(s, id) == Some(serial)
    ensures var s' := HandleResponse(cfg, s, id, reply, serial);
      Matched(s') && (Consumes(s, s', id, true) || Down(s, s'))
  {
    assert id !in s.routes.pendingResponses && id !in s.routes.pendingStreams ==> id in s.tombstones;
    hide StateOk, HolderOf, ViewOf, Deliver, ClearPending, Consumes, Terminate, Down, Tidy;
    var stage := if s.handshake.Probing? then s.handshake.stage else Hello;
    if id in s.routes.pendingResponses {
      DeliverThenClear(cfg, s, id, serial, Answered(stage, reply), prudent);
    } else if id in s.routes.pendingStreams || s.tombstones[id].kind == Stream {
      FrameTerminates(cfg, s);
    } else {
      DroppedTombstone(s, id);
    }
  }

  lemma StreamEventCustody(cfg: Config, s: State, id: RequestId, t: EventType, accepted: bool, serial: nat, prudent: bool)
    requires ValidConfig(cfg) && StateOk(cfg, s) && Tidy(s, prudent) && Matched(s) && s.child.Some? && !MicrotaskDue(s)
    requires HolderOf(s, id) == Some(serial) && id in s.routes.pendingStreams
    ensures var s' := HandleEvent(cfg, s, id, t, accepted, serial);
      Matched(s') && (Consumes(s, s', id, IsTerminal(t)) || Consumes(s, s', id, false) || Down(s, s'))
  {
    hide StateOk, HolderOf, ViewOf, Deliver, ClearPending, Consumes, Down, Tidy, Steady;
    if accepted {
      DeliverMatches(cfg, s, id, serial);
      DeliveredConsumes(s, id, serial);
      DeliverThenClear(cfg, s, id, serial, Broken(false), prudent);
    } else {
      ClearToTombstone(cfg, s, id, Broken(false), prudent);
      SteadyConsumes(s, ClearPending(cfg, s, id, true, Broken(false)), id);
    }
  }

  lemma EventCustody(cfg: Config, s: State, id: RequestId, t: EventType, accepted: bool, serial: nat, prudent: bool)
    requires ValidConfig(cfg) && StateOk(cfg, s) && Tidy(s, prudent) && Matched(s) && s.child.Some? && !MicrotaskDue(s)
    requires HolderOf(s, id) == Some(serial)
    ensures var s' := HandleEvent(cfg, s, id, t, accepted, serial);
      Matched(s') && (Consumes(s, s', id, IsTerminal(t)) || Consumes(s, s', id, false) || Down(s, s'))
  {
    if id in s.routes.pendingStreams {
      hide *;
      StreamEventCustody(cfg, s, id, t, accepted, serial, prudent);
    } else {
      assert id !in s.routes.pendingResponses ==> id in s.tombstones;
      hide StateOk, HolderOf, ViewOf, Consumes, Terminate, Down, Tidy;
      if id in s.routes.pendingResponses || s.tombstones[id].kind == Unary {
        FrameTerminates(cfg, s);
      } else {
        DroppedTombstone(s, id);
        SteadyConsumes(s, s, id);
      }
    }
  }

  lemma DeliveredConsumes(s: State, id: RequestId, serial: nat)
    requires IsPending(s.routes, id) && s.child.Some?
    ensures Consumes(s, Deliver(s, id, serial), id, false)
  {
    assert forall x :: HolderOf(Deliver(s, id, serial), x) == HolderOf(s, x);
    hide HolderOf, ViewOf;
  }

  lemma SteadyConsumes(s: State, s': State, id: RequestId)
    requires s.child.Some?
    ensures Steady(s, s', {}) ==> Consumes(s, s', id, false)
    ensures Steady(s, s', {}) || Down(s, s') ==> s'.deliveries == s.deliveries
    ensures Consumes(s, s, id, false)
  {
    hide HolderOf, ViewOf;
  }
}
