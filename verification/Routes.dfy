/**
 The routing tables of the transport: who waits for admission, who is pending, who
 holds the single-flight slot. `calls` and `settled` record the history the claims are
 about: the n-th admitted call was opened under `calls[n]`, and `settled` holds the
 calls whose promise or queue has been given its outcome.
*/
module Routes {
  import opened Ledger
  import opened Wire

  datatype Waiting = Waiting(call: nat, line: Line, phase: WaitPhase)

  datatype Pending = Pending(call: nat, serial: nat, child: nat, slot: bool)

  datatype Routes = Tables(
    waitingRequests: map<RequestId, Waiting>,
    waitingStreams: map<RequestId, Waiting>,
    pendingResponses: map<RequestId, Pending>,
    pendingStreams: map<RequestId, Pending>,
    waitingAdmissionIds: set<RequestId>,
    activeRequestIds: set<RequestId>,
    activeControlRequestIds: set<RequestId>,
    slots: seq<nat>,          // the legacyTail chain: calls whose slot is not released, in acquisition order
    calls: seq<RequestId>,
    settled: set<nat>)

  const NO_ROUTES := Tables(map[], map[], map[], map[], {}, {}, {}, [], [], {})

  predicate IsWaiting(r: Routes, id: RequestId) {
    id in r.waitingRequests || id in r.waitingStreams
  }

  predicate IsPending(r: Routes, id: RequestId) {
    id in r.pendingResponses || id in r.pendingStreams
  }

  function WaitingOf(r: Routes, id: RequestId): Waiting
    requires IsWaiting(r, id)
  {
    if id in r.waitingRequests then r.waitingRequests[id] else r.waitingStreams[id]
  }

  function PendingOf(r: Routes, id: RequestId): Pending
    requires IsPending(r, id)
  {
    if id in r.pendingResponses then r.pendingResponses[id] else r.pendingStreams[id]
  }

  predicate IsLive(r: Routes, id: RequestId) {
    IsWaiting(r, id) || IsPending(r, id)
  }

  function Status(r: Routes, id: RequestId): Ledger.Status
    requires IsLive(r, id)
  {
    if IsWaiting(r, id) then Waits(WaitingOf(r, id).call, WaitingOf(r, id).phase)
    else Pends(PendingOf(r, id).call, PendingOf(r, id).slot, PendingOf(r, id).child)
  }

  function Ids(r: Routes): set<RequestId> {
    r.waitingRequests.Keys + r.waitingStreams.Keys + r.pendingResponses.Keys + r.pendingStreams.Keys
  }

  /** The four tables as one map, which is a function because they are disjoint. */
  function ViewOf(r: Routes): View {
    map id | id in Ids(r) :: Status(r, id)
  }

  /** `waitingAdmissionIds.size + activeRequestIds.size`. */
  function Admitted(r: Routes): nat {
    |r.waitingAdmissionIds| + |r.activeRequestIds|
  }

  function Callers(r: Routes): int {
    Admitted(r) - |r.activeControlRequestIds|
  }

  /** The head of the slot chain belongs to a pending route, so nobody else is granted. */
  predicate SlotHeld(r: Routes) {
    r.slots != [] && Holds(ViewOf(r), r.calls, r.slots[0])
  }

  /** The head of the slot chain is still waiting for its grant. */
  predicate SlotWanted(r: Routes) {
    r.slots != [] && Queued(ViewOf(r), r.calls, r.slots[0])
  }

  // ----- operations

  function Open(r: Routes, kind: Kind, id: RequestId, line: Line): Routes {
    var r1 := r.(waitingAdmissionIds := r.waitingAdmissionIds + {id}, calls := r.calls + [id]);
    if kind == Unary
    then r1.(waitingRequests := r.waitingRequests[id := Waiting(|r.calls|, line, AwaitingHandshake)])
    else r1.(waitingStreams := r.waitingStreams[id := Waiting(|r.calls|, line, Deferred)])
  }

  function OpenControl(r: Routes, id: RequestId, serial: nat, child: nat): Routes {
    r.(activeRequestIds := r.activeRequestIds + {id},
       activeControlRequestIds := r.activeControlRequestIds + {id},
       pendingResponses := r.pendingResponses[id := Pending(|r.calls|, serial, child, false)],
       calls := r.calls + [id])
  }

  function SetPhase(r: Routes, id: RequestId, phase: WaitPhase): Routes
    requires IsWaiting(r, id)
  {
    if id in r.waitingRequests
    then r.(waitingRequests := r.waitingRequests[id := r.waitingRequests[id].(phase := phase)])
    else r.(waitingStreams := r.waitingStreams[id := r.waitingStreams[id].(phase := phase)])
  }

  function ReleaseAll(m: map<RequestId, Waiting>, ok: bool): map<RequestId, Waiting> {
    map id | id in m :: if m[id].phase == AwaitingHandshake then m[id].(phase := Released(ok)) else m[id]
  }

  /** The handshake promise settles for everyone who awaits it. */
  function ReleaseWaiters(r: Routes, ok: bool): Routes {
    r.(waitingRequests := ReleaseAll(r.waitingRequests, ok), waitingStreams := ReleaseAll(r.waitingStreams, ok))
  }

  /** `acquireLegacySlot`. A request has been promoted by then, a stream has not. */
  function AcquireSlot(r: Routes, id: RequestId): Routes
    requires IsWaiting(r, id)
  {
    var r1 := SetPhase(r, id, AwaitingSlot).(slots := r.slots + [WaitingOf(r, id).call]);
    if id in r.waitingRequests
    then r1.(waitingAdmissionIds := r.waitingAdmissionIds - {id}, activeRequestIds := r.activeRequestIds + {id})
    else r1
  }

  /** A waiting route becomes pending: promotion, if still due, and `issueResponse` or `issueStream`. */
  function Launch(r: Routes, id: RequestId, serial: nat, child: nat, slot: bool): Routes
    requires IsWaiting(r, id)
  {
    var p := Pending(WaitingOf(r, id).call, serial, child, slot);
    var r1 := r.(waitingAdmissionIds := r.waitingAdmissionIds - {id}, activeRequestIds := r.activeRequestIds + {id});
    if id in r.waitingRequests
    then r1.(waitingRequests := r.waitingRequests - {id}, pendingResponses := r.pendingResponses[id := p])
    else r1.(waitingStreams := r.waitingStreams - {id}, pendingStreams := r.pendingStreams[id := p])
  }

  /** `cancelWaiting` and the rejection path of a caller that never issued; the slot is
      given back when its promise has been granted, otherwise it stays in the chain. */
  function DropWaiting(r: Routes, id: RequestId, granted: bool): Routes
    requires IsWaiting(r, id)
  {
    var call := WaitingOf(r, id).call;
    r.(waitingRequests := r.waitingRequests - {id},
       waitingStreams := r.waitingStreams - {id},
       waitingAdmissionIds := r.waitingAdmissionIds - {id},
       activeRequestIds := r.activeRequestIds - {id},
       slots := if granted then Unslotted(r.slots, call) else r.slots,
       settled := r.settled + {call})
  }

  /** A pending route gets its outcome: out of the table, its id and slot released. */
  function DropPending(r: Routes, id: RequestId): Routes
    requires IsPending(r, id)
  {
    var p := PendingOf(r, id);
    r.(pendingResponses := r.pendingResponses - {id},
       pendingStreams := r.pendingStreams - {id},
       activeRequestIds := r.activeRequestIds - {id},
       activeControlRequestIds := r.activeControlRequestIds - {id},
       slots := if p.slot then Unslotted(r.slots, p.call) else r.slots,
       settled := r.settled + {p.call})
  }

  /** A granted slot whose caller settled while it waited is passed on. */
  function SkipSlot(r: Routes): Routes
    requires r.slots != []
  {
    r.(slots := r.slots[1..])
  }

  /** `failAll`: every route gets an outcome and every table is emptied. */
  function FailAll(r: Routes): Routes {
    Tables(map[], map[], map[], map[], {}, {}, {},
           if SlotHeld(r) then r.slots[1..] else r.slots,
           r.calls,
           r.settled + set c: nat | c < |r.calls| && Carries(ViewOf(r), r.calls, c))
  }

  // ----- what every reachable table satisfies

  /** An admitted id is in exactly one table, and the three id sets say which kind of
      table; the transport's own ids are never anywhere but in `pendingResponses`. */
  predicate IdOk(r: Routes, id: RequestId) {
    && !(id in r.waitingRequests && id in r.waitingStreams)
    && !(id in r.pendingResponses && id in r.pendingStreams)
    && !(IsWaiting(r, id) && IsPending(r, id))
    && (id in r.waitingAdmissionIds <==>
          id in r.waitingStreams || (id in r.waitingRequests && r.waitingRequests[id].phase != AwaitingSlot))
    && (id in r.activeRequestIds <==>
          IsPending(r, id) || (id in r.waitingRequests && r.waitingRequests[id].phase == AwaitingSlot))
    && (id in r.activeControlRequestIds <==> id in r.pendingResponses && id.Control?)
    && (IsWaiting(r, id) || id in r.pendingStreams ==> id.Caller?)
    && (id in r.waitingRequests ==> r.waitingRequests[id].phase != Deferred)
    && (IsPending(r, id) && id.Control? ==> !PendingOf(r, id).slot)
  }

  ghost predicate Partitioned(r: Routes) {
    forall id :: IdOk(r, id)
  }

  ghost predicate RoutesOk(r: Routes) {
    Partitioned(r) && LedgerOk(ViewOf(r), r.calls, r.settled, r.slots)
  }

  // Each operation is followed one id at a time: `Fits` says all there is to say about
  // one id, and a table that fits a view everywhere has that view.

  predicate Fits(r: Routes, v: View, id: RequestId) {
    && IdOk(r, id)
    && (id in v <==> IsLive(r, id))
    && (id in v ==> v[id] == Status(r, id))
  }

  lemma ViewFits(r: Routes, id: RequestId)
    requires IdOk(r, id)
    ensures Fits(r, ViewOf(r), id)
  {
  }

  lemma FittingView(r: Routes, v: View)
    requires forall id :: Fits(r, v, id)
    ensures Partitioned(r) && ViewOf(r) == v
  {
    forall id
      ensures IdOk(r, id) && (id in ViewOf(r) <==> id in v) && (id in v ==> ViewOf(r)[id] == v[id])
    {
      assert Fits(r, v, id);
    }
  }

  lemma OpenAt(r: Routes, kind: Kind, id: RequestId, line: Line, v: View, x: RequestId)
    requires Fits(r, v, x) && Fits(r, v, id) && id !in v && id.Caller?
    ensures Fits(Open(r, kind, id, line), v[id := Waits(|r.calls|, if kind == Unary then AwaitingHandshake else Deferred)], x)
    ensures Admitted(Open(r, kind, id, line)) == Admitted(r) + 1
  {
  }

  lemma OpenKeeps(r: Routes, kind: Kind, id: RequestId, line: Line)
    requires RoutesOk(r) && id !in ViewOf(r) && id.Caller?
    ensures RoutesOk(Open(r, kind, id, line))
    ensures Admitted(Open(r, kind, id, line)) == Admitted(r) + 1
    ensures ViewOf(Open(r, kind, id, line))
         == ViewOf(r)[id := Waits(|r.calls|, if kind == Unary then AwaitingHandshake else Deferred)]
  {
    var r' := Open(r, kind, id, line);
    var st := Waits(|r.calls|, if kind == Unary then AwaitingHandshake else Deferred);
    var v' := ViewOf(r)[id := st];
    ViewFits(r, id);
    forall x
      ensures Fits(r', v', x)
    {
      ViewFits(r, x);
      OpenAt(r, kind, id, line, ViewOf(r), x);
    }
    OpenAt(r, kind, id, line, ViewOf(r), id);
    FittingView(r', v');
    OpeningKeeps(ViewOf(r), r.calls, r.settled, r.slots, id, st);
  }

  lemma OpenControlAt(r: Routes, id: RequestId, serial: nat, child: nat, v: View, x: RequestId)
    requires Fits(r, v, x) && Fits(r, v, id) && id !in v && id.Control?
    ensures Fits(OpenControl(r, id, serial, child), v[id := Pends(|r.calls|, false, child)], x)
    ensures Admitted(OpenControl(r, id, serial, child)) == Admitted(r) + 1
    ensures Callers(OpenControl(r, id, serial, child)) == Callers(r)
  {
  }

  lemma OpenControlKeeps(r: Routes, id: RequestId, serial: nat, child: nat)
    requires RoutesOk(r) && id !in ViewOf(r) && id.Control?
    ensures RoutesOk(OpenControl(r, id, serial, child))
    ensures Admitted(OpenControl(r, id, serial, child)) == Admitted(r) + 1
    ensures Callers(OpenControl(r, id, serial, child)) == Callers(r)
    ensures ViewOf(OpenControl(r, id, serial, child)) == ViewOf(r)[id := Pends(|r.calls|, false, child)]
  {
    var r' := OpenControl(r, id, serial, child);
    var v' := ViewOf(r)[id := Pends(|r.calls|, false, child)];
    ViewFits(r, id);
    forall x
      ensures Fits(r', v', x)
    {
      ViewFits(r, x);
      OpenControlAt(r, id, serial, child, ViewOf(r), x);
    }
    OpenControlAt(r, id, serial, child, ViewOf(r), id);
    FittingView(r', v');
    OpeningKeeps(ViewOf(r), r.calls, r.settled, r.slots, id, Pends(|r.calls|, false, child));
  }

  lemma SetPhaseAt(r: Routes, id: RequestId, phase: WaitPhase, v: View, x: RequestId)
    requires Fits(r, v, x) && Fits(r, v, id) && IsWaiting(r, id)
    requires WaitingOf(r, id).phase != AwaitingSlot && phase != AwaitingSlot && phase != Deferred
    ensures Fits(SetPhase(r, id, phase), v[id := Waits(WaitingOf(r, id).call, phase)], x)
  {
  }

  lemma SetPhaseKeeps(r: Routes, id: RequestId, phase: WaitPhase)
    requires RoutesOk(r) && IsWaiting(r, id)
    requires WaitingOf(r, id).phase != AwaitingSlot && phase != AwaitingSlot && phase != Deferred
    ensures RoutesOk(SetPhase(r, id, phase))
    ensures ViewOf(SetPhase(r, id, phase)) == ViewOf(r)[id := Waits(WaitingOf(r, id).call, phase)]
  {
    var r' := SetPhase(r, id, phase);
    var st := Waits(WaitingOf(r, id).call, phase);
    var v' := ViewOf(r)[id := st];
    ViewFits(r, id);
    forall x
      ensures Fits(r', v', x)
    {
      ViewFits(r, x);
      SetPhaseAt(r, id, phase, ViewOf(r), x);
    }
    FittingView(r', v');
    MovingKeeps(ViewOf(r), r.calls, r.settled, r.slots, id, st);
  }

  lemma AcquireSlotAt(r: Routes, id: RequestId, v: View, x: RequestId)
    requires Fits(r, v, x) && Fits(r, v, id) && IsWaiting(r, id) && WaitingOf(r, id).phase != AwaitingSlot
    ensures Fits(AcquireSlot(r, id), v[id := Waits(WaitingOf(r, id).call, AwaitingSlot)], x)
    ensures Admitted(AcquireSlot(r, id)) == Admitted(r)
  {
  }

  lemma AcquireSlotKeeps(r: Routes, id: RequestId)
    requires RoutesOk(r) && IsWaiting(r, id) && WaitingOf(r, id).phase != AwaitingSlot
    ensures RoutesOk(AcquireSlot(r, id))
    ensures Admitted(AcquireSlot(r, id)) == Admitted(r)
    ensures ViewOf(AcquireSlot(r, id)) == ViewOf(r)[id := Waits(WaitingOf(r, id).call, AwaitingSlot)]
  {
    var v' := ViewOf(r)[id := Waits(WaitingOf(r, id).call, AwaitingSlot)];
    ViewFits(r, id);
    forall x
      ensures Fits(AcquireSlot(r, id), v', x)
    {
      ViewFits(r, x);
      AcquireSlotAt(r, id, ViewOf(r), x);
    }
    AcquireSlotAt(r, id, ViewOf(r), id);
    FittingView(AcquireSlot(r, id), v');
    AcquiringKeeps(ViewOf(r), r.calls, r.settled, r.slots, id);
  }

  lemma LaunchAt(r: Routes, id: RequestId, serial: nat, child: nat, slot: bool, v: View, x: RequestId)
    requires Fits(r, v, x) && Fits(r, v, id) && IsWaiting(r, id)
    ensures Fits(Launch(r, id, serial, child, slot), v[id := Pends(WaitingOf(r, id).call, slot, child)], x)
  {
  }

  lemma LaunchAdmits(r: Routes, id: RequestId, serial: nat, child: nat, slot: bool)
    requires IdOk(r, id) && IsWaiting(r, id)
    ensures Admitted(Launch(r, id, serial, child, slot)) == Admitted(r)
  {
    if id in r.waitingAdmissionIds {
      assert id !in r.activeRequestIds;
    } else {
      assert r.waitingAdmissionIds - {id} == r.waitingAdmissionIds;
      assert r.activeRequestIds + {id} == r.activeRequestIds;
    }
  }

  /** A route is launched with the slot exactly when its grant has reached it. */
  lemma LaunchKeeps(r: Routes, id: RequestId, serial: nat, child: nat, slot: bool)
    requires RoutesOk(r) && IsWaiting(r, id)
    requires if slot then SlotWanted(r) && r.calls[r.slots[0]] == id else WaitingOf(r, id).phase != AwaitingSlot
    ensures RoutesOk(Launch(r, id, serial, child, slot))
    ensures Admitted(Launch(r, id, serial, child, slot)) == Admitted(r)
    ensures ViewOf(Launch(r, id, serial, child, slot)) == ViewOf(r)[id := Pends(WaitingOf(r, id).call, slot, child)]
  {
    var r' := Launch(r, id, serial, child, slot);
    var st := Pends(WaitingOf(r, id).call, slot, child);
    var v' := ViewOf(r)[id := st];
    ViewFits(r, id);
    forall x
      ensures Fits(r', v', x)
    {
      ViewFits(r, x);
      LaunchAt(r, id, serial, child, slot, ViewOf(r), x);
    }
    LaunchAdmits(r, id, serial, child, slot);
    FittingView(r', v');
    if slot {
      GrantingKeeps(ViewOf(r), r.calls, r.settled, r.slots, child);
    } else {
      MovingKeeps(ViewOf(r), r.calls, r.settled, r.slots, id, st);
    }
  }

  lemma DropWaitingAt(r: Routes, id: RequestId, granted: bool, v: View, x: RequestId)
    requires Fits(r, v, x) && Fits(r, v, id) && IsWaiting(r, id)
    ensures Fits(DropWaiting(r, id, granted), v - {id}, x)
    ensures Admitted(DropWaiting(r, id, granted)) == Admitted(r) - 1
  {
  }

  lemma DropWaitingKeeps(r: Routes, id: RequestId, granted: bool)
    requires RoutesOk(r) && IsWaiting(r, id)
    ensures RoutesOk(DropWaiting(r, id, granted))
    ensures Admitted(DropWaiting(r, id, granted)) == Admitted(r) - 1
    ensures ViewOf(DropWaiting(r, id, granted)) == ViewOf(r) - {id}
  {
    ViewFits(r, id);
    forall x
      ensures Fits(DropWaiting(r, id, granted), ViewOf(r) - {id}, x)
    {
      ViewFits(r, x);
      DropWaitingAt(r, id, granted, ViewOf(r), x);
    }
    DropWaitingAt(r, id, granted, ViewOf(r), id);
    FittingView(DropWaiting(r, id, granted), ViewOf(r) - {id});
    SettlingKeeps(ViewOf(r), r.calls, r.settled, r.slots, id, granted);
  }

  lemma DropPendingAt(r: Routes, id: RequestId, v: View, x: RequestId)
    requires Fits(r, v, x) && Fits(r, v, id) && IsPending(r, id)
    ensures Fits(DropPending(r, id), v - {id}, x)
    ensures Admitted(DropPending(r, id)) == Admitted(r) - 1
    ensures Callers(DropPending(r, id)) == if id.Control? then Callers(r) else Callers(r) - 1
  {
  }

  lemma DropPendingKeeps(r: Routes, id: RequestId)
    requires RoutesOk(r) && IsPending(r, id)
    ensures RoutesOk(DropPending(r, id))
    ensures Admitted(DropPending(r, id)) == Admitted(r) - 1
    ensures Callers(DropPending(r, id)) == if id.Control? then Callers(r) else Callers(r) - 1
    ensures ViewOf(DropPending(r, id)) == ViewOf(r) - {id}
  {
    ViewFits(r, id);
    forall x
      ensures Fits(DropPending(r, id), ViewOf(r) - {id}, x)
    {
      ViewFits(r, x);
      DropPendingAt(r, id, ViewOf(r), x);
    }
    DropPendingAt(r, id, ViewOf(r), id);
    FittingView(DropPending(r, id), ViewOf(r) - {id});
    SettlingKeeps(ViewOf(r), r.calls, r.settled, r.slots, id, PendingOf(r, id).slot);
  }

  lemma SkipSlotKeeps(r: Routes)
    requires RoutesOk(r)
    requires r.slots != [] && !SlotHeld(r) && !SlotWanted(r)
    ensures RoutesOk(SkipSlot(r))
    ensures ViewOf(SkipSlot(r)) == ViewOf(r)
  {
    var r' := SkipSlot(r);
    forall x
      ensures Fits(r', ViewOf(r), x)
    {
      ViewFits(r, x);
    }
    FittingView(r', ViewOf(r));
    SkippingKeeps(ViewOf(r), r.calls, r.settled, r.slots);
  }

  /** After `failAll` nothing is admitted and every call ever opened has its outcome. */
  lemma FailAllKeeps(r: Routes)
    requires RoutesOk(r)
    ensures RoutesOk(FailAll(r)) && RoutesOk(FailAll(r).(slots := []))
    ensures Ids(FailAll(r)) == {} && Admitted(FailAll(r)) == 0
    ensures forall c: nat :: c in FailAll(r).settled <==> c < |r.calls|
    ensures ViewOf(FailAll(r)) == map[] && ViewOf(FailAll(r).(slots := [])) == map[]
  {
    var r' := FailAll(r);
    forall x
      ensures Fits(r', map[], x) && Fits(r'.(slots := []), map[], x)
    {
    }
    FittingView(r', map[]);
    FittingView(r'.(slots := []), map[]);
    FailingAllKeeps(ViewOf(r), r.calls, r.settled, r.slots, r'.settled);
  }

  function ReleasedView(v: View, ok: bool): View {
    map id | id in v ::
      if v[id].Waits? && v[id].phase == AwaitingHandshake then v[id].(phase := Released(ok)) else v[id]
  }

  lemma ReleaseWaitersKeeps(r: Routes, ok: bool)
    requires RoutesOk(r)
    ensures RoutesOk(ReleaseWaiters(r, ok))
    ensures ViewOf(ReleaseWaiters(r, ok)) == ReleasedView(ViewOf(r), ok)
  {
    var r' := ReleaseWaiters(r, ok);
    var v := ViewOf(r);
    var v' := ReleasedView(v, ok);
    forall x
      ensures Fits(r', v', x)
    {
      ViewFits(r, x);
    }
    FittingView(r', v');
    ReleasingKeeps(v, v', r.calls, r.settled, r.slots);
  }
}
