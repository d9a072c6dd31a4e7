/**
 The routing maps and sets of `StdioBackendTransport`, updated in place, one method per
 operation of `Routes`. `failAll` settles the routes one at a time; that it ends where
 the one-step specification says rests on each settlement being absorbed by it.
*/
module RoutingTables {
  import opened Wire
  import opened Ledger
  import Routes

  /** Settling one route more or less before `failAll` makes no difference to where it ends. */
  lemma FailAllAbsorbsPending(r: Routes.Routes, id: RequestId)
    requires Routes.RoutesOk(r) && Routes.IsPending(r, id)
    ensures Routes.RoutesOk(Routes.DropPending(r, id))
    ensures Routes.FailAll(Routes.DropPending(r, id)) == Routes.FailAll(r)
  {
    var r' := Routes.DropPending(r, id);
    var v := Routes.ViewOf(r);
    Routes.ViewFits(r, id);
    Routes.DropPendingKeeps(r, id);
    SettlingIsAbsorbed(v, r.calls, r.settled, id);
    SlotIsAbsorbed(v, r.calls, r.settled, r.slots, id, v[id].slot);
  }

  lemma FailAllAbsorbsWaiting(r: Routes.Routes, id: RequestId)
    requires Routes.RoutesOk(r) && Routes.IsWaiting(r, id)
    ensures Routes.RoutesOk(Routes.DropWaiting(r, id, false))
    ensures Routes.FailAll(Routes.DropWaiting(r, id, false)) == Routes.FailAll(r)
  {
    var v := Routes.ViewOf(r);
    Routes.ViewFits(r, id);
    Routes.DropWaitingKeeps(r, id, false);
    SettlingIsAbsorbed(v, r.calls, r.settled, id);
    SlotIsAbsorbed(v, r.calls, r.settled, r.slots, id, false);
  }

  function Carried(v: View, calls: seq<RequestId>): set<nat> {
    set c: nat | c < |calls| && Carries(v, calls, c)
  }

  lemma SettlingIsAbsorbed(v: View, calls: seq<RequestId>, settled: set<nat>, id: RequestId)
    requires Accounted(v, calls, settled) && id in v
    ensures settled + {v[id].call} + Carried(v - {id}, calls) == settled + Carried(v, calls)
  {
    SettlingAccounts(v, calls, settled, id);
    assert Carries(v, calls, v[id].call);
  }

  predicate HeldBy(v: View, calls: seq<RequestId>, slots: seq<nat>) {
    slots != [] && Holds(v, calls, slots[0])
  }

  function Passed(v: View, calls: seq<RequestId>, slots: seq<nat>): seq<nat> {
    if HeldBy(v, calls, slots) then slots[1..] else slots
  }

  lemma SlotIsAbsorbed(v: View, calls: seq<RequestId>, settled: set<nat>, slots: seq<nat>, id: RequestId, slot: bool)
    requires LedgerOk(v, calls, settled, slots) && id in v
    requires slot <==> v[id].Pends? && v[id].slot
    ensures Passed(v - {id}, calls, if slot then Unslotted(slots, v[id].call) else slots) == Passed(v, calls, slots)
  {
    SettlingAccounts(v, calls, settled, id);
    var v' := v - {id};
    if slot {
      assert slots[0] == v[id].call && Holds(v, calls, slots[0]);
      if |slots| > 1 {
        assert !Holds(v', calls, slots[1]) by {
          if Holds(v', calls, slots[1]) {
            assert false;
          }
        }
      }
    }
  }

  lemma FailAllOfNothing(r: Routes.Routes)
    requires Routes.RoutesOk(r) && Routes.Ids(r) == {}
    ensures Routes.FailAll(r) == r
  {
    forall id ensures id !in r.waitingAdmissionIds && id !in r.activeRequestIds && id !in r.activeControlRequestIds {
      assert Routes.IdOk(r, id);
    }
  }

  /** The routing maps and sets, and the slot chain behind `legacyTail`. */
  class RouteTables {
    var pendingResponses: map<RequestId, Routes.Pending>
    var pendingStreams: map<RequestId, Routes.Pending>
    var waitingRequests: map<RequestId, Routes.Waiting>
    var waitingStreams: map<RequestId, Routes.Waiting>
    var waitingAdmissionIds: set<RequestId>
    var activeRequestIds: set<RequestId>
    var activeControlRequestIds: set<RequestId>
    var legacyTail: seq<nat>
    var calls: seq<RequestId>
    var settled: set<nat>

    ghost function Table(): Routes.Routes
      reads this
    {
      Routes.Tables(waitingRequests, waitingStreams, pendingResponses, pendingStreams, waitingAdmissionIds,
                    activeRequestIds, activeControlRequestIds, legacyTail, calls, settled)
    }

    constructor ()
      ensures Table() == Routes.NO_ROUTES
    {
      pendingResponses, pendingStreams, waitingRequests, waitingStreams := map[], map[], map[], map[];
      waitingAdmissionIds, activeRequestIds, activeControlRequestIds := {}, {}, {};
      legacyTail, calls, settled := [], [], {};
    }

    // ----- admission

    method ReserveWaiting(kind: Kind, id: RequestId, line: Line)
      modifies this
      ensures Table() == Routes.Open(old(Table()), kind, id, line)
    {
      waitingAdmissionIds := waitingAdmissionIds + {id};
      if kind == Unary {
        waitingRequests := waitingRequests[id := Routes.Waiting(|calls|, line, AwaitingHandshake)];
      } else {
        waitingStreams := waitingStreams[id := Routes.Waiting(|calls|, line, Deferred)];
      }
      calls := calls + [id];
    }

    method ReserveControl(id: RequestId, serial: nat, child: nat)
      modifies this
      ensures Table() == Routes.OpenControl(old(Table()), id, serial, child)
    {
      activeRequestIds := activeRequestIds + {id};
      activeControlRequestIds := activeControlRequestIds + {id};
      pendingResponses := pendingResponses[id := Routes.Pending(|calls|, serial, child, false)];
      calls := calls + [id];
    }

    method SetPhase(id: RequestId, phase: WaitPhase)
      requires Routes.IsWaiting(Table(), id)
      modifies this
      ensures Table() == Routes.SetPhase(old(Table()), id, phase)
    {
      if id in waitingRequests {
        waitingRequests := waitingRequests[id := waitingRequests[id].(phase := phase)];
      } else {
        waitingStreams := waitingStreams[id := waitingStreams[id].(phase := phase)];
      }
    }

    method ReleaseWaiters(ok: bool)
      modifies this
      ensures Table() == Routes.ReleaseWaiters(old(Table()), ok)
    {
      waitingRequests := Routes.ReleaseAll(waitingRequests, ok);
      waitingStreams := Routes.ReleaseAll(waitingStreams, ok);
    }

    /** `acquireLegacySlot`: the call is the new end of the chain. */
    method AcquireSlot(id: RequestId)
      requires Routes.IsWaiting(Table(), id)
      modifies this
      ensures Table() == Routes.AcquireSlot(old(Table()), id)
    {
      if id in waitingRequests {
        waitingAdmissionIds := waitingAdmissionIds - {id};
        activeRequestIds := activeRequestIds + {id};
        legacyTail := legacyTail + [waitingRequests[id].call];
      } else {
        legacyTail := legacyTail + [waitingStreams[id].call];
      }
      SetPhase(id, AwaitingSlot);
    }

    /** Promotion, where it is still due, and the move from waiting to pending. */
    method Launch(id: RequestId, serial: nat, child: nat, slot: bool)
      requires Routes.IsWaiting(Table(), id)
      modifies this
      ensures Table() == Routes.Launch(old(Table()), id, serial, child, slot)
    {
      waitingAdmissionIds := waitingAdmissionIds - {id};
      activeRequestIds := activeRequestIds + {id};
      if id in waitingRequests {
        pendingResponses := pendingResponses[id := Routes.Pending(waitingRequests[id].call, serial, child, slot)];
        waitingRequests := waitingRequests - {id};
      } else {
        pendingStreams := pendingStreams[id := Routes.Pending(waitingStreams[id].call, serial, child, slot)];
        waitingStreams := waitingStreams - {id};
      }
    }

    /** Who is at the head of the slot chain, and whether its caller still waits there. */
    method Head() returns (id: RequestId, wanted: bool)
      requires Routes.RoutesOk(Table()) && legacyTail != []
      ensures legacyTail[0] < |calls| && id == calls[legacyTail[0]]
      ensures wanted <==> Routes.SlotWanted(Table())
      ensures wanted ==> Routes.IsWaiting(Table(), id)
    {
      HeadIsKnown();
      var call := legacyTail[0];
      id := calls[call];
      Routes.ViewFits(Table(), id);
      wanted := (id in waitingRequests && waitingRequests[id] == Routes.Waiting(call, waitingRequests[id].line, AwaitingSlot))
                || (id in waitingStreams && waitingStreams[id] == Routes.Waiting(call, waitingStreams[id].line, AwaitingSlot));
    }

    lemma HeadIsKnown()
      requires Routes.RoutesOk(Table()) && legacyTail != []
      ensures legacyTail[0] < |calls|
      ensures Routes.IdOk(Table(), calls[legacyTail[0]])
    {
    }

    method SkipSlot()
      requires legacyTail != []
      modifies this`legacyTail
      ensures Table() == Routes.SkipSlot(old(Table()))
    {
      legacyTail := legacyTail[1..];
    }

    // ----- settlement

    /** A settled route that holds the slot passes it on. */
    method ReleaseSlot(slot: bool, call: nat)
      modifies this`legacyTail
      ensures legacyTail == if slot then Unslotted(old(legacyTail), call) else old(legacyTail)
    {
      if slot && legacyTail != [] && legacyTail[0] == call {
        legacyTail := legacyTail[1..];
      }
    }

    /** A pending promise or queue gets its outcome, and its id is given back. */
    method SettlePending(id: RequestId)
      requires Routes.IsPending(Table(), id)
      requires !(id in pendingResponses && id in pendingStreams)
      modifies this`pendingResponses, this`pendingStreams, this`activeRequestIds, this`activeControlRequestIds
      modifies this`legacyTail, this`settled
      ensures Table() == Routes.DropPending(old(Table()), id)
      ensures pendingResponses.Keys + pendingStreams.Keys == old(pendingResponses.Keys + pendingStreams.Keys) - {id}
    {
      var p: Routes.Pending;
      if id in pendingResponses {
        p := pendingResponses[id];
        pendingResponses := pendingResponses - {id};
      } else {
        p := pendingStreams[id];
        pendingStreams := pendingStreams - {id};
      }
      ReleaseSlot(p.slot, p.call);
      activeRequestIds := activeRequestIds - {id};
      activeControlRequestIds := activeControlRequestIds - {id};
      settled := settled + {p.call};
      assert pendingResponses == old(pendingResponses) - {id};
      assert pendingStreams == old(pendingStreams) - {id};
    }

    /** `cancelWaiting`. */
    method CancelWaiting(id: RequestId, granted: bool)
      requires Routes.IsWaiting(Table(), id)
      requires !(id in waitingRequests && id in waitingStreams)
      modifies this`waitingRequests, this`waitingStreams, this`waitingAdmissionIds, this`activeRequestIds
      modifies this`legacyTail, this`settled
      ensures Table() == Routes.DropWaiting(old(Table()), id, granted)
      ensures waitingRequests.Keys + waitingStreams.Keys == old(waitingRequests.Keys + waitingStreams.Keys) - {id}
    {
      var w: Routes.Waiting;
      if id in waitingRequests {
        w := waitingRequests[id];
        waitingRequests := waitingRequests - {id};
      } else {
        w := waitingStreams[id];
        waitingStreams := waitingStreams - {id};
      }
      ReleaseSlot(granted, w.call);
      waitingAdmissionIds := waitingAdmissionIds - {id};
      activeRequestIds := activeRequestIds - {id};
      settled := settled + {w.call};
      assert waitingRequests == old(waitingRequests) - {id};
      assert waitingStreams == old(waitingStreams) - {id};
    }

    method FailPending()
      requires Routes.RoutesOk(Table())
      modifies this`pendingResponses, this`pendingStreams, this`activeRequestIds, this`activeControlRequestIds
      modifies this`legacyTail, this`settled
      ensures Routes.RoutesOk(Table()) && Routes.FailAll(Table()) == old(Routes.FailAll(Table()))
      ensures pendingResponses == map[] && pendingStreams == map[]
    {
      hide Routes.RoutesOk, Routes.FailAll, Routes.DropPending;
      while pendingResponses.Keys + pendingStreams.Keys != {}
        invariant Routes.RoutesOk(Table()) && Routes.FailAll(Table()) == old(Routes.FailAll(Table()))
        decreases pendingResponses.Keys + pendingStreams.Keys
      {
        var id :| id in pendingResponses.Keys + pendingStreams.Keys;
        OneTable(id);
        FailAllAbsorbsPending(Table(), id);
        SettlePending(id);
      }
    }

    method FailWaiting()
      requires Routes.RoutesOk(Table())
      modifies this`waitingRequests, this`waitingStreams, this`waitingAdmissionIds, this`activeRequestIds
      modifies this`legacyTail, this`settled
      ensures Routes.RoutesOk(Table()) && Routes.FailAll(Table()) == old(Routes.FailAll(Table()))
      ensures waitingRequests == map[] && waitingStreams == map[]
    {
      hide Routes.RoutesOk, Routes.FailAll, Routes.DropWaiting;
      while waitingRequests.Keys + waitingStreams.Keys != {}
        invariant Routes.RoutesOk(Table()) && Routes.FailAll(Table()) == old(Routes.FailAll(Table()))
        decreases waitingRequests.Keys + waitingStreams.Keys
      {
        var id :| id in waitingRequests.Keys + waitingStreams.Keys;
        OneTable(id);
        FailAllAbsorbsWaiting(Table(), id);
        CancelWaiting(id, false);
      }
    }

    /** `failAll`: pending routes first, then the waiting ones; the sets are empty by then. */
    method FailAll()
      requires Routes.RoutesOk(Table())
      modifies this`pendingResponses, this`pendingStreams, this`waitingRequests, this`waitingStreams
      modifies this`waitingAdmissionIds, this`activeRequestIds, this`activeControlRequestIds
      modifies this`legacyTail, this`settled
      ensures Table() == Routes.FailAll(old(Table())) && Routes.RoutesOk(Table())
    {
      hide Routes.RoutesOk, Routes.FailAll;
      FailPending();
      FailWaiting();
      FailAllOfNothing(Table());
      NothingAdmitted();
      waitingAdmissionIds := {};
      activeRequestIds := {};
      activeControlRequestIds := {};
    }

    /** A child starts with a fresh slot chain and no control route. */
    method Reset()
      modifies this
      ensures Table() == old(Table()).(activeControlRequestIds := {}, slots := [])
    {
      activeControlRequestIds := {};
      legacyTail := [];
    }

    lemma NothingAdmitted()
      requires Routes.RoutesOk(Table()) && Routes.Ids(Table()) == {}
      ensures waitingAdmissionIds == {} && activeRequestIds == {} && activeControlRequestIds == {}
    {
      forall id ensures id !in waitingAdmissionIds && id !in activeRequestIds && id !in activeControlRequestIds {
        assert Routes.IdOk(Table(), id);
      }
    }

    lemma OneTable(id: RequestId)
      requires Routes.RoutesOk(Table())
      ensures !(id in pendingResponses && id in pendingStreams)
      ensures !(id in waitingRequests && id in waitingStreams)
    {
      assert Routes.IdOk(Table(), id);
    }
  }
}
