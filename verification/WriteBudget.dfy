/**
 The outbound queue of `StdioBackendTransport` updated in place: the chain of the current
 child, the detached chain of an earlier one, and the charges that survive both.
*/
module WriteBudgets {
  import opened Wire
  import WriteQueue

  class WriteBudget {
    var writeTail: seq<WriteQueue.Admission>
    var retiredWriteTail: Option<seq<WriteQueue.Admission>>
    var writeQueueCount: nat
    var writeQueueBytes: nat
    var recycleBlockedByWriteTeardown: bool

    ghost function Queue(): WriteQueue.Writes
      reads this
    {
      WriteQueue.Writes(writeTail, retiredWriteTail, writeQueueCount, writeQueueBytes, recycleBlockedByWriteTeardown)
    }

    constructor ()
      ensures Queue() == WriteQueue.NO_WRITES
    {
      writeTail, retiredWriteTail, writeQueueCount, writeQueueBytes := [], None, 0, 0;
      recycleBlockedByWriteTeardown := false;
    }

    method ActiveWrites() returns (writes: seq<WriteQueue.Admission>)
      ensures writes == WriteQueue.ActiveWrites(Queue())
    {
      writes := (if retiredWriteTail.Some? then retiredWriteTail.value else []) + writeTail;
    }

    method IsWritingTo(child: nat) returns (writing: bool)
      ensures writing <==> WriteQueue.WritesTo(Queue(), child)
    {
      var writes := ActiveWrites();
      writing := exists a :: a in writes && a.child == child;
    }

    method HasStarted(id: RequestId) returns (started: bool)
      ensures started <==> exists a :: a in WriteQueue.ActiveWrites(Queue()) && a.id == id && a.started
    {
      var writes := ActiveWrites();
      started := exists a :: a in writes && a.id == id && a.started;
    }

    /** `admitWrite`: both limits are looked at before anything is charged. */
    method Admit(limits: WriteQueue.WriteLimits, a: WriteQueue.Admission) returns (admitted: bool)
      modifies this
      ensures admitted <==> old(WriteQueue.HasRoom(Queue(), limits, a.bytes))
      ensures Queue() == if admitted then WriteQueue.Charge(old(Queue()), a) else old(Queue())
    {
      if writeQueueCount >= limits.count || writeQueueBytes as int > limits.bytes - a.bytes {
        return false;
      }
      writeTail := writeTail + [a];
      writeQueueCount := writeQueueCount + 1;
      writeQueueBytes := writeQueueBytes + a.bytes;
      return true;
    }

    method Start(retired: bool)
      requires WriteQueue.Chain(Queue(), retired) != []
      modifies this
      ensures Queue() == WriteQueue.MarkStarted(old(Queue()), retired)
    {
      if retired {
        var q := retiredWriteTail.value;
        retiredWriteTail := Some([q[0].(started := true)] + q[1..]);
      } else {
        writeTail := [writeTail[0].(started := true)] + writeTail[1..];
      }
    }

    /** `releaseWrite`: the head of a chain settles and gives back its own charge. */
    method ReleaseWrite(retired: bool)
      requires WriteQueue.Chain(Queue(), retired) != []
      modifies this
      ensures Queue() == WriteQueue.Release(old(Queue()), retired)
    {
      var bytes;
      if retired {
        bytes := retiredWriteTail.value[0].bytes;
        retiredWriteTail := Some(retiredWriteTail.value[1..]);
      } else {
        bytes := writeTail[0].bytes;
        writeTail := writeTail[1..];
      }
      writeQueueCount := if writeQueueCount == 0 then 0 else writeQueueCount - 1;
      writeQueueBytes := if writeQueueBytes <= bytes then 0 else writeQueueBytes - bytes;
      MaybeUnblock();
    }

    /** `maybeUnblockWriteTeardown`. */
    method MaybeUnblock()
      modifies this`recycleBlockedByWriteTeardown
      ensures Queue() == WriteQueue.Unblock(old(Queue()))
    {
      if recycleBlockedByWriteTeardown && retiredWriteTail.None? && writeTail == [] {
        recycleBlockedByWriteTeardown := false;
      }
    }

    /** `retireWriteLifecycle`: one chain may be detached, a second recycle blocks. */
    method Retire(child: nat)
      modifies this
      ensures Queue() == WriteQueue.Retire(old(Queue()), child)
    {
      var writing := IsWritingTo(child);
      if !writing {
        return;
      }
      if retiredWriteTail.None? {
        retiredWriteTail := Some(writeTail);
        writeTail := [];
      } else {
        recycleBlockedByWriteTeardown := true;
      }
    }

    method FinishRetired()
      requires retiredWriteTail == Some([])
      modifies this
      ensures Queue() == WriteQueue.FinishRetired(old(Queue()))
    {
      retiredWriteTail := None;
      MaybeUnblock();
    }
  }
}
