/**
 The content of `AsyncQueue` as a value: a bounded queue whose producer is told when it is
 full, and what any number of `next` calls make of it.
*/
module BoundedQueues {
  import opened Wire

  datatype Bounds = Bounds(count: nat, bytes: nat)

  datatype Queue<T, E> = Queue(values: seq<T>, queuedBytes: nat, done: bool, error: Option<E>)

  function Empty<T, E>(): Queue<T, E> {
    Queue([], 0, false, None)
  }

  predicate IsOpen<T, E>(q: Queue<T, E>) {
    !q.done && q.error.None?
  }

  /** `sizeOf` has no answer for a value that cannot be encoded. */
  predicate Accepts<T, E>(q: Queue<T, E>, bounds: Bounds, size: Option<nat>) {
    && IsOpen(q)
    && |q.values| < bounds.count
    && size.Some? && q.queuedBytes <= bounds.bytes - size.value
  }

  function Push<T, E>(q: Queue<T, E>, bounds: Bounds, size: Option<nat>, value: T): Queue<T, E> {
    if Accepts(q, bounds, size) then q.(values := q.values + [value], queuedBytes := q.queuedBytes + size.value) else q
  }

  function Finish<T, E>(q: Queue<T, E>): Queue<T, E> {
    if IsOpen(q) then q.(done := true) else q
  }

  function Fail<T, E>(q: Queue<T, E>, error: E): Queue<T, E> {
    if IsOpen(q) then Queue([], 0, false, Some(error)) else q
  }

  /** What `return` leaves behind, whatever its callback did first. */
  function Return<T, E>(q: Queue<T, E>): Queue<T, E> {
    q.(values := [], queuedBytes := 0, done := true)
  }

  datatype Taken<T, E> = Value(value: T) | Threw(error: E) | Over | Parks

  /** One pass of the loop in `nextValue`. */
  function Take<T, E>(q: Queue<T, E>): Taken<T, E> {
    if q.values != [] then Value(q.values[0])
    else if q.error.Some? then Threw(q.error.value)
    else if q.done then Over
    else Parks
  }

  function Taking<T, E>(q: Queue<T, E>, size: Option<nat>): Queue<T, E> {
    if q.values == [] then q
    else
      var bytes := if size.Some? && size.value < q.queuedBytes then q.queuedBytes - size.value else 0;
      q.(values := q.values[1..], queuedBytes := bytes)
  }

  function BytesIn<T>(values: seq<T>, sizeOf: T -> Option<nat>): nat {
    if values == [] then 0
    else (var size := sizeOf(values[0]); if size.Some? then size.value else 0) + BytesIn(values[1..], sizeOf)
  }

  ghost predicate Accounted<T, E>(q: Queue<T, E>, bounds: Bounds, sizeOf: T -> Option<nat>) {
    && |q.values| <= bounds.count
    && q.queuedBytes == BytesIn(q.values, sizeOf) <= bounds.bytes
    && (forall i :: 0 <= i < |q.values| ==> sizeOf(q.values[i]).Some?)
  }

  lemma {:induction false} BytesOfPush<T>(values: seq<T>, value: T, sizeOf: T -> Option<nat>)
    requires sizeOf(value).Some?
    ensures BytesIn(values + [value], sizeOf) == BytesIn(values, sizeOf) + sizeOf(value).value
  {
    if values != [] {
      assert (values + [value])[1..] == values[1..] + [value];
      BytesOfPush(values[1..], value, sizeOf);
    }
  }

  /** The counter is the sum of what is queued, both limits hold, and the clamp at zero
      never bites, whatever is done to the queue. */
  lemma AccountingIsKept<T, E>(q: Queue<T, E>, bounds: Bounds, sizeOf: T -> Option<nat>, value: T)
    requires Accounted(q, bounds, sizeOf)
    ensures Accounted(Push(q, bounds, sizeOf(value), value), bounds, sizeOf)
    ensures Accounted(Finish(q), bounds, sizeOf)
    ensures forall error :: Accounted(Fail(q, error), bounds, sizeOf)
    ensures Accounted(Return(q), bounds, sizeOf)
    ensures q.values != [] ==> Accounted(Taking(q, sizeOf(q.values[0])), bounds, sizeOf)
  {
    if Accepts(q, bounds, sizeOf(value)) {
      BytesOfPush(q.values, value, sizeOf);
    }
  }

  // ----- who gets what

  datatype CallState<T, E> = Parked | Due | Got(value: T) | Failed(error: E) | Exhausted

  /** The history of a queue: every value accepted, what each `next` call is doing or got,
      and the calls that were handed a value, in order. */
  datatype History<T, E> = History(pushed: seq<T>, calls: seq<CallState<T, E>>, handed: seq<nat>)

  ghost predicate Distinct(s: seq<nat>) {
    forall i, j :: 0 <= i < j < |s| ==> s[i] != s[j]
  }

  /** The n-th value handed over is the n-th value accepted, and went to one call only. */
  ghost predicate HandedInOrder<T, E>(h: History<T, E>) {
    && |h.handed| <= |h.pushed| && Distinct(h.handed)
    && (forall i :: 0 <= i < |h.handed| ==> h.handed[i] < |h.calls| && h.calls[h.handed[i]] == Got(h.pushed[i]))
    && (forall c :: 0 <= c < |h.calls| && h.calls[c].Got? ==> c in h.handed)
  }

  /** What is still queued is exactly what was accepted and not handed over, unless the
      queue was cleared, and then it is empty for good. */
  ghost predicate NothingLost<T, E>(q: Queue<T, E>, h: History<T, E>) {
    && |h.handed| <= |h.pushed|
    && (q.values == h.pushed[|h.handed|..] || (q.values == [] && !IsOpen(q)))
  }

  ghost predicate WaitersOk<T, E>(q: Queue<T, E>, waiters: seq<nat>, calls: seq<CallState<T, E>>) {
    && Distinct(waiters)
    && (forall i :: 0 <= i < |waiters| ==> waiters[i] < |calls| && calls[waiters[i]].Parked?)
    && (forall c :: 0 <= c < |calls| && calls[c].Parked? ==> c in waiters)
    && (waiters != [] ==> q.values == [] && IsOpen(q))
  }

  function Woken<T, E>(calls: seq<CallState<T, E>>): (r: seq<CallState<T, E>>)
    ensures |r| == |calls|
    ensures forall i :: 0 <= i < |calls| ==> r[i] == if calls[i].Parked? then Due else calls[i]
  {
    seq(|calls|, i requires 0 <= i < |calls| => if calls[i].Parked? then Due else calls[i])
  }

  /** A pass that finds a value hands over the oldest one and no other. */
  lemma HandingOver<T, E>(q: Queue<T, E>, h: History<T, E>, call: nat)
    requires HandedInOrder(h) && NothingLost(q, h) && q.values != []
    requires call < |h.calls| && h.calls[call].Due?
    ensures q.values[0] == h.pushed[|h.handed|]
    ensures HandedInOrder(h.(calls := h.calls[call := Got(q.values[0])], handed := h.handed + [call]))
  {
    var h' := h.(calls := h.calls[call := Got(q.values[0])], handed := h.handed + [call]);
    forall c | 0 <= c < |h'.calls| && h'.calls[c].Got?
      ensures c in h'.handed
    {
      if c == call {
        assert h'.handed[|h.handed|] == call;
      } else {
        assert c in h.handed;
      }
    }
  }

  function NextSize<T, E>(q: Queue<T, E>, sizeOf: T -> Option<nat>): Option<nat> {
    if q.values == [] then None else sizeOf(q.values[0])
  }

  /** What a pass does to the call that made it. */
  function Passed<T, E>(h: History<T, E>, call: nat, taken: Taken<T, E>): History<T, E>
    requires call < |h.calls|
  {
    match taken
    case Value(v) => h.(calls := h.calls[call := Got(v)], handed := h.handed + [call])
    case Threw(e) => h.(calls := h.calls[call := Failed(e)])
    case Over => h.(calls := h.calls[call := Exhausted])
    case Parks => h.(calls := h.calls[call := Parked])
  }
}
