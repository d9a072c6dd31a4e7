/**
 The bounded outbound queue of the transport. `writeTail` is a promise chain; here it
 is the queue of writes that have not settled yet, oldest first. When a child is
 recycled with writes unresolved its chain is detached into `retiredWriteTail`.
*/
module WriteQueue {
  import opened Wire

  datatype Admission = Admission(id: RequestId, kind: Kind, serial: nat, bytes: nat, child: nat, started: bool)

  datatype Writes = Writes(
    tail: seq<Admission>,
    retired: Option<seq<Admission>>,
    count: nat,
    bytes: nat,
    recycleBlocked: bool)

  datatype WriteLimits = WriteLimits(count: nat, bytes: nat)

  const NO_WRITES := Writes([], None, 0, 0, false)

  function Retired(w: Writes): seq<Admission> {
    if w.retired.Some? then w.retired.value else []
  }

  /** `activeWrites`: charged admissions that have not been released. */
  function ActiveWrites(w: Writes): seq<Admission> {
    Retired(w) + w.tail
  }

  function BytesOf(q: seq<Admission>): nat {
    if q == [] then 0 else q[0].bytes + BytesOf(q[1..])
  }

  // ----- operations

  predicate HasRoom(w: Writes, limits: WriteLimits, bytes: nat) {
    w.count < limits.count && w.bytes <= limits.bytes - bytes
  }

  function Charge(w: Writes, a: Admission): Writes {
    w.(tail := w.tail + [a], count := w.count + 1, bytes := w.bytes + a.bytes)
  }

  /** Which of the two chains a step acts on. */
  function Chain(w: Writes, retired: bool): seq<Admission> {
    if retired then Retired(w) else w.tail
  }

  function WithChain(w: Writes, retired: bool, q: seq<Admission>): Writes
    requires retired ==> w.retired.Some?
  {
    if retired then w.(retired := Some(q)) else w.(tail := q)
  }

  function MarkStarted(w: Writes, retired: bool): Writes
    requires Chain(w, retired) != []
  {
    var q := Chain(w, retired);
    WithChain(w, retired, [q[0].(started := true)] + q[1..])
  }

  function Unblock(w: Writes): Writes {
    if w.recycleBlocked && w.retired.None? && ActiveWrites(w) == [] then w.(recycleBlocked := false) else w
  }

  /** The head of a chain settles: `releaseWrite`. */
  function Release(w: Writes, retired: bool): Writes
    requires Chain(w, retired) != []
  {
    var q := Chain(w, retired);
    var count := if w.count == 0 then 0 else w.count - 1;
    var bytes := if w.bytes <= q[0].bytes then 0 else w.bytes - q[0].bytes;
    Unblock(WithChain(w, retired, q[1..]).(count := count, bytes := bytes))
  }

  predicate WritesTo(w: Writes, child: nat) {
    exists i :: 0 <= i < |ActiveWrites(w)| && ActiveWrites(w)[i].child == child
  }

  function Retire(w: Writes, child: nat): Writes {
    if !WritesTo(w, child) then w
    else if w.retired.None? then w.(retired := Some(w.tail), tail := [])
    else w.(recycleBlocked := true)
  }

  /** `finishRetiredWriteTail`: the detached chain has run to its end. */
  function FinishRetired(w: Writes): Writes
    requires w.retired == Some([])
  {
    Unblock(w.(retired := None))
  }

  predicate IsUnfinished(w: Writes, child: nat) {
    exists a :: a in ActiveWrites(w) && a.child == child
  }

  /** What a recycle does to the queue: nothing if the child has no unfinished write;
      otherwise it detaches the chain, or, if one is detached already, blocks further
      recycling; and no write is lost or reordered. */
  lemma RetireExactly(w: Writes, child: nat)
    ensures var w' := Retire(w, child);
      && ActiveWrites(w') == ActiveWrites(w)
      && (w'.retired.Some? && w.retired.None? <==> w.retired.None? && IsUnfinished(w, child))
      && (w'.recycleBlocked && !w.recycleBlocked <==> !w.recycleBlocked && w.retired.Some? && IsUnfinished(w, child))
  {
    if WritesTo(w, child) {
      var i :| 0 <= i < |ActiveWrites(w)| && ActiveWrites(w)[i].child == child;
      assert ActiveWrites(w)[i] in ActiveWrites(w);
    }
  }

  // ----- what every reachable queue satisfies

  ghost predicate OneChild(q: seq<Admission>, child: nat) {
    forall i :: 0 <= i < |q| ==> q[i].child == child
  }

  ghost predicate OnlyHeadStarted(q: seq<Admission>) {
    forall i :: 0 < i < |q| ==> !q[i].started
  }

  ghost predicate Increasing(q: seq<Admission>, bound: nat) {
    && (forall i :: 0 <= i < |q| ==> q[i].serial < bound)
    && (forall i, j :: 0 <= i < j < |q| ==> q[i].serial < q[j].serial)
  }

  /** `child` is the current child, `spawned` how many there have been, `serials` how
      many writes have been issued. */
  ghost predicate WritesOk(w: Writes, limits: WriteLimits, child: Option<nat>, spawned: nat, serials: nat) {
    && w.count == |ActiveWrites(w)| <= limits.count
    && w.bytes == BytesOf(ActiveWrites(w)) <= limits.bytes
    && OnlyHeadStarted(w.tail) && OnlyHeadStarted(Retired(w))
    && Increasing(ActiveWrites(w), serials)
    && (w.recycleBlocked ==> child.None? && (w.retired.Some? || w.tail != []))
    && (child.Some? ==> child.value + 1 == spawned && OneChild(w.tail, child.value))
    && (child.None? && !w.recycleBlocked ==> w.tail == [])
    && (w.tail != [] ==> w.tail[0].child < spawned && OneChild(w.tail, w.tail[0].child))
    && (Retired(w) != [] ==> Retired(w)[0].child < spawned && OneChild(Retired(w), Retired(w)[0].child))
    && (Retired(w) != [] && child.Some? ==> Retired(w)[0].child < child.value)
  }

  lemma {:induction false} BytesOfConcat(p: seq<Admission>, q: seq<Admission>)
    ensures BytesOf(p + q) == BytesOf(p) + BytesOf(q)
  {
    if p == [] {
      assert p + q == q;
    } else {
      BytesOfConcat(p[1..], q);
      assert (p + q)[1..] == p[1..] + q;
    }
  }

  lemma SerialsGrow(w: Writes, limits: WriteLimits, child: Option<nat>, spawned: nat, serials: nat)
    requires WritesOk(w, limits, child, spawned, serials)
    ensures WritesOk(w, limits, child, spawned, serials + 1)
  {
  }

  lemma ChargeKeeps(w: Writes, limits: WriteLimits, child: nat, spawned: nat, a: Admission)
    requires WritesOk(w, limits, Some(child), spawned, a.serial)
    requires HasRoom(w, limits, a.bytes)
    requires a.child == child && !a.started
    ensures WritesOk(Charge(w, a), limits, Some(child), spawned, a.serial + 1)
  {
    ChargeGrows(w, a);
    IncreasingGrows(ActiveWrites(w), a);
    hide ActiveWrites, BytesOf, Increasing;
  }

  lemma ChargeGrows(w: Writes, a: Admission)
    ensures ActiveWrites(Charge(w, a)) == ActiveWrites(w) + [a]
    ensures BytesOf(ActiveWrites(Charge(w, a))) == BytesOf(ActiveWrites(w)) + a.bytes
  {
    assert ActiveWrites(Charge(w, a)) == ActiveWrites(w) + [a];
    BytesOfConcat(ActiveWrites(w), [a]);
  }

  lemma IncreasingGrows(q: seq<Admission>, a: Admission)
    requires Increasing(q, a.serial)
    ensures Increasing(q + [a], a.serial + 1)
  {
  }

  lemma MarkStartedKeeps(w: Writes, limits: WriteLimits, child: Option<nat>, spawned: nat, serials: nat)
    requires WritesOk(w, limits, child, spawned, serials)
    requires w.tail != []
    ensures WritesOk(MarkStarted(w, false), limits, child, spawned, serials)
  {
    var w' := MarkStarted(w, false);
    var head := w.tail[0];
    assert ActiveWrites(w) == Retired(w) + ([head] + w.tail[1..]);
    BytesOfConcat(Retired(w), w.tail);
    BytesOfConcat(Retired(w), w'.tail);
    assert w'.tail[1..] == w.tail[1..];
    assert forall i :: 0 <= i < |ActiveWrites(w)| ==>
        ActiveWrites(w')[i].(started := true) == ActiveWrites(w)[i].(started := true);
  }

  lemma ReleaseBytes(w: Writes, retired: bool)
    requires Chain(w, retired) != []
    ensures BytesOf(ActiveWrites(w)) == Chain(w, retired)[0].bytes + BytesOf(ActiveWrites(Release(w, retired)))
  {
    var q := Chain(w, retired);
    var w' := Release(w, retired);
    BytesOfConcat(Retired(w), w.tail);
    BytesOfConcat(Retired(w'), w'.tail);
  }

  /** Releasing a head gives back exactly its own charge; `Math.max(0, ...)` never bites. */
  lemma ReleaseCharges(w: Writes, limits: WriteLimits, child: Option<nat>, spawned: nat, serials: nat, retired: bool)
    requires WritesOk(w, limits, child, spawned, serials)
    requires Chain(w, retired) != []
    ensures var w' := Release(w, retired);
      && w'.count == |ActiveWrites(w')| == w.count - 1
      && w'.bytes == BytesOf(ActiveWrites(w')) == w.bytes - Chain(w, retired)[0].bytes
      && Increasing(ActiveWrites(w'), serials)
  {
    var w' := Release(w, retired);
    ReleaseBytes(w, retired);
    var k := if retired then 0 else |Retired(w)|;
    assert forall i {:trigger ActiveWrites(w')[i]} :: 0 <= i < |ActiveWrites(w')| ==>
        ActiveWrites(w')[i] == ActiveWrites(w)[if i < k then i else i + 1];
  }

  lemma ReleaseKeeps(w: Writes, limits: WriteLimits, child: Option<nat>, spawned: nat, serials: nat, retired: bool)
    requires WritesOk(w, limits, child, spawned, serials)
    requires Chain(w, retired) != []
    ensures WritesOk(Release(w, retired), limits, child, spawned, serials)
  {
    ReleaseCharges(w, limits, child, spawned, serials, retired);
  }

  /** Recycling the current child never leaves its writes where a new child could see
      them, whether the chain is detached or the recycle is blocked. */
  lemma RetireKeeps(w: Writes, limits: WriteLimits, child: nat, spawned: nat, serials: nat)
    requires WritesOk(w, limits, Some(child), spawned, serials)
    ensures WritesOk(Retire(w, child), limits, None, spawned, serials)
  {
    assert w.tail != [] ==> WritesTo(w, child) by {
      if w.tail != [] {
        assert ActiveWrites(w)[|Retired(w)|].child == child;
      }
    }
    if WritesTo(w, child) && w.retired.None? {
      assert ActiveWrites(Retire(w, child)) == ActiveWrites(w);
    }
  }

  lemma FinishRetiredKeeps(w: Writes, limits: WriteLimits, child: Option<nat>, spawned: nat, serials: nat)
    requires WritesOk(w, limits, child, spawned, serials)
    requires w.retired == Some([])
    ensures WritesOk(FinishRetired(w), limits, child, spawned, serials)
  {
    assert ActiveWrites(w.(retired := None)) == ActiveWrites(w);
  }

  /** A new child may be spawned exactly when the recycle is not blocked, and then it
      starts behind an empty chain of its own. */
  lemma SpawnKeeps(w: Writes, limits: WriteLimits, spawned: nat, serials: nat)
    requires WritesOk(w, limits, None, spawned, serials) && !w.recycleBlocked
    ensures WritesOk(w, limits, Some(spawned), spawned + 1, serials) && w.tail == []
  {
  }
}
