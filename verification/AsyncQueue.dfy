/**
 `AsyncQueue` updated in place: the queued values, their bytes, and the `next` calls that
 wait. The history remembers what was accepted and which call each value went to.
*/
module AsyncQueues {
  import opened Wire
  import opened BoundedQueues

  class AsyncQueue<T, E> {
    const bounds: Bounds
    const sizeOf: T -> Option<nat>
    var values: seq<T>
    var waiters: seq<nat>
    var queuedBytes: nat
    var done: bool
    var error: Option<E>
    var returnCalled: bool
    var nextCall: nat
    ghost var history: History<T, E>

    ghost function Content(): Queue<T, E>
      reads this
    {
      Queue(values, queuedBytes, done, error)
    }

    ghost predicate Valid()
      reads this
    {
      && Accounted(Content(), bounds, sizeOf)
      && HandedInOrder(history) && NothingLost(Content(), history)
      && WaitersOk(Content(), waiters, history.calls)
      && nextCall == |history.calls|
    }

    constructor (bounds: Bounds, sizeOf: T -> Option<nat>)
      ensures Valid() && Content() == Empty() && !returnCalled && history == History([], [], [])
    {
      this.bounds, this.sizeOf := bounds, sizeOf;
      values, waiters, queuedBytes, done, error, returnCalled := [], [], 0, false, None, false;
      nextCall, history := 0, History([], [], []);
    }

    /** `wake`: every waiter is resolved; each will look at the queue again in its turn. */
    method Wake()
      modifies this`waiters, this`history
      requires forall i :: 0 <= i < |waiters| ==> waiters[i] < |history.calls| && history.calls[waiters[i]].Parked?
      requires forall c :: 0 <= c < |history.calls| && history.calls[c].Parked? ==> c in waiters
      requires Distinct(waiters)
      ensures waiters == [] && history == old(history).(calls := Woken(old(history.calls)))
    {
      var woken := waiters;
      waiters := [];
      var i := 0;
      while i < |woken|
        invariant 0 <= i <= |woken| && waiters == [] && history == old(history).(calls := history.calls)
        invariant |history.calls| == |old(history.calls)|
        invariant forall c :: 0 <= c < |history.calls| ==>
          history.calls[c] == if c in woken[..i] then Due else old(history.calls)[c]
      {
        history := history.(calls := history.calls[woken[i] := Due]);
        i := i + 1;
      }
      assert woken[..|woken|] == woken;
      assert history.calls == Woken(old(history.calls));
    }

    method Push(value: T) returns (ok: bool)
      requires Valid()
      modifies this
      ensures Valid() && returnCalled == old(returnCalled)
      ensures ok <==> Accepts(old(Content()), bounds, sizeOf(value))
      ensures Content() == BoundedQueues.Push(old(Content()), bounds, sizeOf(value), value)
      ensures history == if ok then History(old(history.pushed) + [value], Woken(old(history.calls)), old(history.handed))
                         else old(history)
    {
      if done || error.Some? || |values| >= bounds.count {
        return false;
      }
      var size := sizeOf(value);
      if size.None? || queuedBytes as int > bounds.bytes - size.value {
        return false;
      }
      BytesOfPush(values, value, sizeOf);
      values := values + [value];
      queuedBytes := queuedBytes + size.value;
      history := history.(pushed := history.pushed + [value]);
      Wake();
      return true;
    }

    method Finish()
      requires Valid()
      modifies this
      ensures Valid() && returnCalled == old(returnCalled)
      ensures Content() == BoundedQueues.Finish(old(Content()))
      ensures history == if IsOpen(old(Content())) then old(history).(calls := Woken(old(history.calls))) else old(history)
    {
      if done || error.Some? {
        return;
      }
      done := true;
      Wake();
    }

    method Fail(e: E)
      requires Valid()
      modifies this
      ensures Valid() && returnCalled == old(returnCalled)
      ensures Content() == BoundedQueues.Fail(old(Content()), e)
      ensures history == if IsOpen(old(Content())) then old(history).(calls := Woken(old(history.calls))) else old(history)
    {
      if done || error.Some? {
        return;
      }
      values := [];
      queuedBytes := 0;
      error := Some(e);
      Wake();
    }

    /** The first `return` runs the owner's callback, which may fail this very queue; what
        follows the callback is `EndReturn`. */
    method BeginReturn() returns (first: bool)
      modifies this`returnCalled
      ensures returnCalled && first == !old(returnCalled)
    {
      first := !returnCalled;
      returnCalled := true;
    }

    method EndReturn()
      requires Valid()
      modifies this
      ensures Valid() && returnCalled == old(returnCalled)
      ensures Content() == Return(old(Content()))
      ensures history == old(history).(calls := Woken(old(history.calls)))
    {
      values := [];
      queuedBytes := 0;
      done := true;
      Wake();
    }

    /** A new `next` call makes its first pass at once. */
    method Next() returns (call: nat, taken: Taken<T, E>)
      requires Valid()
      modifies this
      ensures Valid() && returnCalled == old(returnCalled)
      ensures call == |old(history.calls)| && taken == Take(old(Content()))
      ensures Content() == Taking(old(Content()), NextSize(old(Content()), sizeOf))
      ensures history == Passed(old(history).(calls := old(history.calls) + [Due]), call, taken)
    {
      call := nextCall;
      nextCall := nextCall + 1;
      history := history.(calls := history.calls + [Due]);
      taken := Resume(call);
    }

    /** The oldest value goes to the call. */
    method Shift(call: nat) returns (value: T)
      requires Valid() && values != [] && call < |history.calls| && history.calls[call].Due?
      modifies this`values, this`queuedBytes, this`history
      ensures Valid() && value == old(values[0])
      ensures Content() == Taking(old(Content()), sizeOf(value))
      ensures history == Passed(old(history), call, Value(value))
    {
      value := values[0];
      HandingOver(Content(), history, call);
      AccountingIsKept(Content(), bounds, sizeOf, value);
      values := values[1..];
      var size := sizeOf(value);
      queuedBytes := if size.Some? && size.value < queuedBytes then queuedBytes - size.value else 0;
      history := Passed(history, call, Value(value));
    }

    /** One pass of `nextValue`, run when the call starts and whenever it has been woken. */
    method Resume(call: nat) returns (taken: Taken<T, E>)
      requires Valid() && call < |history.calls| && history.calls[call].Due?
      modifies this
      ensures Valid() && returnCalled == old(returnCalled)
      ensures taken == Take(old(Content()))
      ensures Content() == Taking(old(Content()), NextSize(old(Content()), sizeOf))
      ensures history == Passed(old(history), call, taken)
    {
      if values != [] {
        var value := Shift(call);
        return Value(value);
      } else if error.Some? {
        taken := Threw(error.value);
      } else if done {
        taken := Over;
      } else {
        waiters := waiters + [call];
        taken := Parks;
      }
      history := Passed(history, call, taken);
    }
  }
}
