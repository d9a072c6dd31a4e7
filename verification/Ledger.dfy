/**
 What one admitted call is doing, and the two global facts about it: every call ever
 admitted is either live in exactly one table or settled, and the single-flight slot
 is a first-in first-out mutex.
*/
module Ledger {
  import opened Wire

  datatype WaitPhase =
    | Deferred                // a stream whose microtask has not asked for the handshake yet
    | AwaitingHandshake
    | Released(ok: bool)      // the handshake promise settled; the continuation is due
    | AwaitingSlot

  datatype Status =
    | Waits(call: nat, phase: WaitPhase)
    | Pends(call: nat, slot: bool, child: nat)

  type View = map<RequestId, Status>

  /** The route opened as call `c` is still in a table. */
  predicate Carries(v: View, calls: seq<RequestId>, c: nat) {
    c < |calls| && calls[c] in v && v[calls[c]].call == c
  }

  ghost predicate Accounted(v: View, calls: seq<RequestId>, settled: set<nat>) {
    && (forall id :: id in v ==> v[id].call < |calls| && calls[v[id].call] == id && v[id].call !in settled)
    && (forall c :: c in settled ==> c < |calls|)
    && (forall c: nat :: c < |calls| && c !in settled ==> Carries(v, calls, c))
  }

  predicate Queued(v: View, calls: seq<RequestId>, c: nat) {
    Carries(v, calls, c) && v[calls[c]] == Waits(c, AwaitingSlot)
  }

  predicate Holds(v: View, calls: seq<RequestId>, c: nat) {
    Carries(v, calls, c) && v[calls[c]].Pends? && v[calls[c]].slot
  }

  predicate Distinct(s: seq<nat>) {
    forall i, j :: 0 <= i < j < |s| ==> s[i] != s[j]
  }

  /** Only the head of the chain can hold the slot; whoever else is in the chain waits
      for it or has settled meanwhile. */
  ghost predicate SlotsOk(v: View, calls: seq<RequestId>, settled: set<nat>, slots: seq<nat>) {
    && Distinct(slots)
    && (forall i :: 0 <= i < |slots| ==>
          slots[i] in settled || Queued(v, calls, slots[i]) || (i == 0 && Holds(v, calls, slots[0])))
    && (forall id :: id in v && v[id].Waits? && v[id].phase == AwaitingSlot ==> v[id].call in slots)
    && (forall id :: id in v && v[id].Pends? && v[id].slot ==> slots != [] && slots[0] == v[id].call)
  }

  ghost predicate LedgerOk(v: View, calls: seq<RequestId>, settled: set<nat>, slots: seq<nat>) {
    Accounted(v, calls, settled) && SlotsOk(v, calls, settled, slots)
  }

  /** Two routes cannot both hold the slot. */
  lemma SlotIsExclusive(v: View, calls: seq<RequestId>, settled: set<nat>, slots: seq<nat>, x: RequestId, y: RequestId)
    requires LedgerOk(v, calls, settled, slots)
    requires x in v && v[x].Pends? && v[x].slot
    requires y in v && v[y].Pends? && v[y].slot
    ensures x == y
  {
  }

  lemma OpeningKeeps(v: View, calls: seq<RequestId>, settled: set<nat>, slots: seq<nat>, id: RequestId, st: Status)
    requires LedgerOk(v, calls, settled, slots)
    requires id !in v && st.call == |calls|
    requires st.Waits? ==> st.phase != AwaitingSlot
    requires st.Pends? ==> !st.slot
    ensures LedgerOk(v[id := st], calls + [id], settled, slots)
  {
    var v', calls' := v[id := st], calls + [id];
    forall c: nat | c < |calls'| && c !in settled
      ensures Carries(v', calls', c)
    {
      assert c < |calls| ==> Carries(v, calls, c);
    }
    forall i | 0 <= i < |slots|
      ensures slots[i] in settled || Queued(v', calls', slots[i]) || (i == 0 && Holds(v', calls', slots[0]))
    {
      assert slots[i] in settled || slots[i] < |calls|;
    }
  }

  lemma MovingKeeps(v: View, calls: seq<RequestId>, settled: set<nat>, slots: seq<nat>, id: RequestId, st: Status)
    requires LedgerOk(v, calls, settled, slots)
    requires id in v && st.call == v[id].call
    requires v[id].Waits? && v[id].phase != AwaitingSlot
    requires st.Waits? ==> st.phase != AwaitingSlot
    requires st.Pends? ==> !st.slot
    ensures LedgerOk(v[id := st], calls, settled, slots)
  {
    var v' := v[id := st];
    forall c: nat | c < |calls| && c !in settled
      ensures Carries(v', calls, c)
    {
      assert Carries(v, calls, c);
    }
  }

  /** Acquiring puts the call at the end of the chain. */
  lemma AcquiringKeeps(v: View, calls: seq<RequestId>, settled: set<nat>, slots: seq<nat>, id: RequestId)
    requires LedgerOk(v, calls, settled, slots)
    requires id in v && v[id].Waits? && v[id].phase != AwaitingSlot
    ensures LedgerOk(v[id := Waits(v[id].call, AwaitingSlot)], calls, settled, slots + [v[id].call])
  {
    var v', slots' := v[id := Waits(v[id].call, AwaitingSlot)], slots + [v[id].call];
    forall c: nat | c < |calls| && c !in settled
      ensures Carries(v', calls, c)
    {
      assert Carries(v, calls, c);
    }
    assert v[id].call !in slots;
    assert forall i :: 0 <= i < |slots| ==> slots'[i] == slots[i];
    assert forall c :: c in slots ==> c in slots';
    assert slots'[|slots|] == v[id].call;
  }

  /** Only the head of the chain may be granted the slot. */
  lemma GrantingKeeps(v: View, calls: seq<RequestId>, settled: set<nat>, slots: seq<nat>, child: nat)
    requires LedgerOk(v, calls, settled, slots)
    requires slots != [] && Queued(v, calls, slots[0])
    ensures LedgerOk(v[calls[slots[0]] := Pends(slots[0], true, child)], calls, settled, slots)
  {
    var id := calls[slots[0]];
    var v' := v[id := Pends(slots[0], true, child)];
    forall c: nat | c < |calls| && c !in settled
      ensures Carries(v', calls, c)
    {
      assert Carries(v, calls, c);
    }
  }

  function Unslotted(slots: seq<nat>, call: nat): seq<nat> {
    if slots != [] && slots[0] == call then slots[1..] else slots
  }

  lemma SettlingAccounts(v: View, calls: seq<RequestId>, settled: set<nat>, id: RequestId)
    requires Accounted(v, calls, settled) && id in v
    ensures Accounted(v - {id}, calls, settled + {v[id].call})
    ensures forall c: nat :: Carries(v - {id}, calls, c) <==> Carries(v, calls, c) && c != v[id].call
  {
    forall c: nat
      ensures Carries(v - {id}, calls, c) <==> Carries(v, calls, c) && c != v[id].call
    {
    }
  }

  /** A route settles. If it holds the slot, or its grant has just fired, the slot moves
      on; if it still queues for the slot its place in the chain outlives it. */
  lemma SettlingKeeps(v: View, calls: seq<RequestId>, settled: set<nat>, slots: seq<nat>, id: RequestId, unslot: bool)
    requires LedgerOk(v, calls, settled, slots)
    requires id in v
    requires v[id].Pends? && v[id].slot ==> unslot
    ensures LedgerOk(v - {id}, calls, settled + {v[id].call}, if unslot then Unslotted(slots, v[id].call) else slots)
  {
    SettlingAccounts(v, calls, settled, id);
    var slots' := if unslot then Unslotted(slots, v[id].call) else slots;
    SettlingKeepsSlots(v, calls, settled, slots, id, slots');
  }

  lemma SettlingKeepsSlots(v: View, calls: seq<RequestId>, settled: set<nat>, slots: seq<nat>, id: RequestId, slots': seq<nat>)
    requires LedgerOk(v, calls, settled, slots)
    requires id in v
    requires if slots != [] && slots[0] == v[id].call
      then slots' == slots[1..] || (slots' == slots && !(v[id].Pends? && v[id].slot))
      else slots' == slots
    ensures SlotsOk(v - {id}, calls, settled + {v[id].call}, slots')
  {
    var k := |slots| - |slots'|;
    assert forall i {:trigger slots'[i]} :: 0 <= i < |slots'| ==> slots'[i] == slots[i + k];
    forall x | x in v - {id} && v[x].Waits? && v[x].phase == AwaitingSlot
      ensures v[x].call in slots'
    {
      var i :| 0 <= i < |slots| && slots[i] == v[x].call;
      assert slots'[i - k] == v[x].call;
    }
  }

  lemma SkippingKeeps(v: View, calls: seq<RequestId>, settled: set<nat>, slots: seq<nat>)
    requires LedgerOk(v, calls, settled, slots)
    requires slots != [] && slots[0] in settled
    ensures LedgerOk(v, calls, settled, slots[1..])
  {
    forall x | x in v && v[x].Waits? && v[x].phase == AwaitingSlot
      ensures v[x].call in slots[1..]
    {
      var i :| 0 <= i < |slots| && slots[i] == v[x].call;
      assert slots[1..][i - 1] == v[x].call;
    }
  }

  /** `failAll` settles every live call, and nothing else. */
  lemma FailingAllKeeps(v: View, calls: seq<RequestId>, settled: set<nat>, slots: seq<nat>, settled': set<nat>)
    requires LedgerOk(v, calls, settled, slots)
    requires settled' == settled + (set c: nat | c < |calls| && Carries(v, calls, c))
    ensures forall c: nat :: c in settled' <==> c < |calls|
    ensures LedgerOk(map[], calls, settled', slots)
    ensures slots != [] ==> LedgerOk(map[], calls, settled', slots[1..])
    ensures LedgerOk(map[], calls, settled', [])
  {
    forall i | 0 <= i < |slots|
      ensures slots[i] in settled'
    {
    }
  }

  lemma ReleasingKeeps(v: View, v': View, calls: seq<RequestId>, settled: set<nat>, slots: seq<nat>)
    requires LedgerOk(v, calls, settled, slots)
    requires v'.Keys == v.Keys
    requires forall id :: id in v ==> v'[id].call == v[id].call
    requires forall id :: id in v ==> (
            || v'[id] == v[id]
            || (v[id].Waits? && v'[id].Waits? && v[id].phase != AwaitingSlot && v'[id].phase != AwaitingSlot))
    ensures LedgerOk(v', calls, settled, slots)
  {
    forall c: nat | c < |calls| && c !in settled
      ensures Carries(v', calls, c)
    {
      assert Carries(v, calls, c);
    }
  }
}
