/**
 One stream from the backend's event frames to the caller: the route's own event queue,
 the pump of `streamFromBackendEvents`, the caller's item queue and the `completed`
 promise. A step is one synchronous run of the transport, the pump or the caller, and the
 route may be lost, cancelled or recycled between any two of them.
*/
module StreamDelivery {
  import opened BoundedQueues
  import opened Wire

  /** Payloads stay opaque; they are named by numbers. */
  type Payload = nat

  datatype Event = ItemEvent(item: Payload) | AgentEvent | CompletedEvent(result: Payload) | FailureEvent(code: Payload)

  predicate IsFinal(e: Event) {
    e.CompletedEvent? || e.FailureEvent?
  }

  datatype Reason = Overflow | PumpOverflow | Reported(code: Payload) | Incomplete | RouteLost

  datatype Outcome = Resolved(result: Payload) | Rejected(reason: Reason)

  datatype Config = Config(
    inner: Bounds,
    outer: Bounds,
    eventSize: Event -> Option<nat>,
    itemSize: Payload -> Option<nat>)

  datatype State = State(
    routed: bool,                  // the stream's route is pending at the transport
    inner: Queue<Event, Reason>,
    innerReturned: bool,
    pumping: bool,
    returnRequested: bool,
    sourceReturned: bool,
    outer: Queue<Payload, Reason>,
    outerReturned: bool,
    completed: Option<Outcome>,
    emitted: seq<Event>,           // history: events framed under this id
    accepted: seq<Event>,          // history: those the inner queue took
    pumped: seq<Event>,            // history: those the pump read
    offered: seq<Payload>,         // history: items the outer queue took
    received: seq<Payload>)        // history: items the caller got

  function Initial(): State {
    State(true, Empty(), false, true, false, false, Empty(), false, None, [], [], [], [], [])
  }

  // ----- the transport's side

  function Emit(cfg: Config, s: State, e: Event): State {
    var s1 := s.(emitted := s.emitted + [e]);
    if !s.routed then s1
    else if !Accepts(s.inner, cfg.inner, cfg.eventSize(e)) then
      s1.(inner := Fail(s.inner, Overflow), routed := false)
    else
      s1.(accepted := s.accepted + [e],
          inner := Ended(Push(s.inner, cfg.inner, cfg.eventSize(e), e), e),
          routed := !IsFinal(e))
  }

  /** A terminal event ends the queue it has just been put into. */
  function Ended(q: Queue<Event, Reason>, e: Event): Queue<Event, Reason> {
    match e
    case CompletedEvent(_) => Finish(q)
    case FailureEvent(code) => Fail(q, Reported(code))
    case _ => q
  }

  /** A cancel, deadline, failed write, recycle or exit reaches the pending route. */
  function LoseRoute(s: State): State {
    if s.routed then s.(inner := Fail(s.inner, RouteLost), routed := false) else s
  }

  // ----- the pump

  /** `returnSource`: the inner queue's `return`, whose callback cancels the route. */
  function ReturnSource(s: State): State {
    if s.sourceReturned then s
    else
      var s1 := if s.innerReturned then s else LoseRoute(s.(innerReturned := true));
      s1.(sourceReturned := true, inner := Return(s1.inner))
  }

  /** `cancel` of the pump. */
  function Abandon(s: State): State {
    if s.returnRequested then s else ReturnSource(LoseRoute(s.(returnRequested := true)))
  }

  function Crash(s: State, reason: Reason): State {
    var s1 := ReturnSource(s);
    s1.(outer := Fail(s1.outer, reason), completed := Some(Rejected(reason)), pumping := false)
  }

  function Read(cfg: Config, s: State): State
    requires s.inner.values != []
  {
    var e := s.inner.values[0];
    s.(inner := Taking(s.inner, cfg.eventSize(e)), pumped := s.pumped + [e])
  }

  /** One pass of the pump's loop. */
  function Pump(cfg: Config, s: State): State {
    match Take(s.inner)
    case Parks => s
    case Over => Crash(s, Incomplete)
    case Threw(reason) => Crash(s, reason)
    case Value(e) =>
      var s1 := Read(cfg, s);
      match e
      case AgentEvent => s1
      case FailureEvent(code) => Crash(s1, Reported(code))
      case CompletedEvent(result) =>
        ReturnSource(s1.(completed := Some(Resolved(result)), outer := Finish(s1.outer), pumping := false))
      case ItemEvent(item) =>
        if Accepts(s.outer, cfg.outer, cfg.itemSize(item))
        then s1.(outer := Push(s.outer, cfg.outer, cfg.itemSize(item), item), offered := s.offered + [item])
        else Crash(Abandon(s1), PumpOverflow)
  }

  // ----- the caller's side

  function CallerNext(cfg: Config, s: State): State {
    if s.outer.values == [] then s
    else s.(outer := Taking(s.outer, cfg.itemSize(s.outer.values[0])), received := s.received + [s.outer.values[0]])
  }

  function CallerReturn(s: State): State {
    var s1 := if s.outerReturned then s else Abandon(s.(outerReturned := true));
    s1.(outer := Return(s1.outer))
  }

  datatype Step = EmitStep(event: Event) | LoseStep | PumpStep | NextStep | ReturnStep

  function Next(cfg: Config, s: State, step: Step): State {
    match step
    case EmitStep(e) => Emit(cfg, s, e)
    case LoseStep => LoseRoute(s)
    case PumpStep => if s.pumping then Pump(cfg, s) else s
    case NextStep => CallerNext(cfg, s)
    case ReturnStep => CallerReturn(s)
  }

  function Run(cfg: Config, s: State, steps: seq<Step>): State
    decreases |steps|
  {
    if steps == [] then s else Run(cfg, Next(cfg, s, steps[0]), steps[1..])
  }

  // ----- what every reachable state satisfies

  function Items(events: seq<Event>): seq<Payload> {
    if events == [] then []
    else
      var last := events[|events| - 1];
      Items(events[..|events| - 1]) + if last.ItemEvent? then [last.item] else []
  }

  predicate EndsWith(events: seq<Event>, e: Event) {
    events != [] && events[|events| - 1] == e
  }

  /** Only the last event taken can end the stream. */
  ghost predicate OneEnding(events: seq<Event>) {
    forall i :: 0 <= i < |events| - 1 ==> !IsFinal(events[i])
  }

  ghost predicate SourceOk(s: State) {
    && s.accepted <= s.emitted && OneEnding(s.accepted)
    && (s.innerReturned <==> s.sourceReturned)
    && s.pumped <= s.accepted
    && (s.inner.values == s.accepted[|s.pumped|..] || (s.inner.values == [] && !IsOpen(s.inner)))
    && (s.routed ==> s.accepted == s.emitted && IsOpen(s.inner) && (s.accepted != [] ==> !IsFinal(s.accepted[|s.accepted| - 1])))
    && (s.inner.error.Some? ==> s.inner.values == [])
    && (s.sourceReturned ==> s.inner.values == [] && !IsOpen(s.inner) && !s.routed)
  }

  ghost predicate SinkOk(s: State) {
    && s.offered <= Items(s.pumped)
    && s.received <= s.offered
    && (s.outer.values == s.offered[|s.received|..] || (s.outer.values == [] && !IsOpen(s.outer)))
    && (s.pumping ==> s.offered == Items(s.pumped))
    && (s.pumping && !s.outerReturned ==> IsOpen(s.outer))
  }

  ghost predicate PromiseOk(s: State) {
    && (s.completed.Some? <==> !s.pumping) && (!s.pumping ==> s.sourceReturned)
    && (s.pumping ==> s.pumped == [] || !IsFinal(s.pumped[|s.pumped| - 1]))
    && (s.outerReturned ==> s.returnRequested)
    && (s.returnRequested && s.pumping ==> s.outerReturned)
    && (s.returnRequested ==> s.sourceReturned)
    && (s.sourceReturned && s.pumping ==> s.returnRequested)
    && |s.received| <= |s.offered|
    && (forall result :: s.completed == Some(Resolved(result)) ==>
          EndsWith(s.pumped, CompletedEvent(result)) && s.pumped == s.accepted && s.offered == Items(s.accepted)
          && (!s.outerReturned ==> s.outer.values == s.offered[|s.received|..] && s.outer.done && s.outer.error.None?))
    && (s.completed.Some? && s.completed.value.Rejected? && !s.returnRequested ==>
          s.accepted == [] || !s.accepted[|s.accepted| - 1].CompletedEvent?)
  }

  /** While nobody has abandoned the stream, a completion that has been accepted waits
      for the pump behind everything accepted before it. */
  ghost predicate CompletionKept(s: State) {
    s.pumping && !s.returnRequested && s.accepted != [] && s.accepted[|s.accepted| - 1].CompletedEvent? ==>
      && !s.routed && |s.pumped| < |s.accepted| && s.inner.values == s.accepted[|s.pumped|..]
      && s.inner.done && s.inner.error.None?
  }

  ghost predicate StateOk(s: State) {
    SourceOk(s) && SinkOk(s) && PromiseOk(s) && CompletionKept(s)
  }

  lemma ItemsOfPush(events: seq<Event>, e: Event)
    ensures Items(events + [e]) == Items(events) + if e.ItemEvent? then [e.item] else []
  {
    assert (events + [e])[..|events|] == events;
  }

  lemma {:induction false} ItemsOfPrefix(a: seq<Event>, b: seq<Event>)
    requires a <= b
    ensures Items(a) <= Items(b)
    decreases |b|
  {
    if |a| < |b| {
      var c := b[..|b| - 1];
      assert c + [b[|b| - 1]] == b;
      assert a <= c;
      ItemsOfPrefix(a, c);
      ItemsOfPush(c, b[|b| - 1]);
    } else {
      assert a == b;
    }
  }

  lemma EmitKeeps(cfg: Config, s: State, e: Event)
    requires StateOk(s)
    ensures StateOk(Emit(cfg, s, e))
  {
    EmitSource(cfg, s, e);
    EmitSink(cfg, s, e);
    hide SourceOk, SinkOk, Emit;
  }

  lemma EmitSource(cfg: Config, s: State, e: Event)
    requires SourceOk(s)
    ensures SourceOk(Emit(cfg, s, e))
  {
    if s.routed && Accepts(s.inner, cfg.inner, cfg.eventSize(e)) {
      var values := Push(s.inner, cfg.inner, cfg.eventSize(e), e).values;
      assert values == (s.accepted + [e])[|s.pumped|..];
    }
  }

  lemma EmitSink(cfg: Config, s: State, e: Event)
    requires SourceOk(s) && SinkOk(s) && PromiseOk(s) && CompletionKept(s)
    ensures SinkOk(Emit(cfg, s, e)) && PromiseOk(Emit(cfg, s, e)) && CompletionKept(Emit(cfg, s, e))
  {
    hide Items, Push, Fail, Finish;
    if s.routed && Accepts(s.inner, cfg.inner, cfg.eventSize(e)) {
      EmitTaken(cfg, s, e);
    }
  }

  lemma EmitTaken(cfg: Config, s: State, e: Event)
    requires SourceOk(s) && PromiseOk(s) && CompletionKept(s)
    requires s.routed && Accepts(s.inner, cfg.inner, cfg.eventSize(e))
    ensures PromiseOk(Emit(cfg, s, e)) && CompletionKept(Emit(cfg, s, e))
  {
    hide Items;
    var values := Push(s.inner, cfg.inner, cfg.eventSize(e), e).values;
    assert values == (s.accepted + [e])[|s.pumped|..];
  }

  lemma LoseKeeps(s: State)
    requires StateOk(s)
    ensures StateOk(LoseRoute(s))
  {
  }

  lemma NextItemKeeps(cfg: Config, s: State)
    requires StateOk(s)
    ensures StateOk(CallerNext(cfg, s))
  {
    hide Items;
  }

  lemma ReturnKeeps(s: State)
    requires StateOk(s)
    ensures StateOk(CallerReturn(s))
  {
  }

  /** The pump gives the stream up after reading an event that is no completion. */
  lemma CrashKeeps(s: State, reason: Reason)
    requires SourceOk(s) && s.pumping && s.completed.None?
    requires s.offered <= Items(s.pumped) && s.received <= s.offered
    requires s.outer.values == s.offered[|s.received|..] || (s.outer.values == [] && !IsOpen(s.outer))
    requires s.outerReturned ==> s.returnRequested
    requires s.returnRequested ==> s.sourceReturned
    requires s.returnRequested || s.accepted == [] || !s.accepted[|s.accepted| - 1].CompletedEvent?
    ensures StateOk(Crash(s, reason))
  {
    hide Items;
  }

  lemma PumpFinalKeeps(cfg: Config, s: State)
    requires StateOk(s) && s.pumping && s.inner.values != [] && s.inner.values[0].CompletedEvent?
    ensures StateOk(Pump(cfg, s))
  {
    FinalFacts(s);
    FinalSource(cfg, s);
    FinalSink(cfg, s);
    hide SourceOk, SinkOk, PromiseOk, CompletionKept, Pump;
  }

  /** A completion at the head of the inner queue is the last event there is. */
  lemma FinalFacts(s: State)
    requires SourceOk(s) && SinkOk(s) && s.pumping && s.inner.values != [] && s.inner.values[0].CompletedEvent?
    ensures s.pumped + [s.inner.values[0]] == s.accepted && s.inner.values[1..] == []
    ensures s.offered == Items(s.accepted)
  {
    ItemsOfPush(s.pumped, s.inner.values[0]);
    hide Items;
    assert s.inner.values[0] == s.accepted[|s.pumped|];
    assert |s.pumped| == |s.accepted| - 1;
  }

  lemma FinalSource(cfg: Config, s: State)
    requires SourceOk(s) && s.pumping && s.inner.values != [] && s.inner.values[0].CompletedEvent?
    requires s.pumped + [s.inner.values[0]] == s.accepted && s.inner.values[1..] == []
    ensures SourceOk(Pump(cfg, s))
  {
  }

  lemma FinalSink(cfg: Config, s: State)
    requires SinkOk(s) && PromiseOk(s) && s.pumping && s.inner.values != [] && s.inner.values[0].CompletedEvent?
    requires s.pumped + [s.inner.values[0]] == s.accepted && s.offered == Items(s.accepted)
    ensures SinkOk(Pump(cfg, s)) && PromiseOk(Pump(cfg, s)) && CompletionKept(Pump(cfg, s))
  {
    hide Items;
  }

  lemma ReadKeeps(cfg: Config, s: State)
    requires SourceOk(s) && s.inner.values != []
    ensures SourceOk(Read(cfg, s))
    ensures s.inner.values[0] == s.accepted[|s.pumped|]
  {
  }

  /** The inner queue has nothing left and says why. */
  lemma PumpOutKeeps(s: State, reason: Reason)
    requires StateOk(s) && s.pumping && s.inner.values == [] && !IsOpen(s.inner)
    ensures StateOk(Crash(s, reason))
  {
    CrashKeeps(s, reason);
  }

  lemma PumpFailureKeeps(cfg: Config, s: State)
    requires StateOk(s) && s.pumping && s.inner.values != [] && s.inner.values[0].FailureEvent?
    ensures StateOk(Crash(Read(cfg, s), Reported(s.inner.values[0].code)))
  {
    ItemsOfPush(s.pumped, s.inner.values[0]);
    ReadKeeps(cfg, s);
    CrashKeeps(Read(cfg, s), Reported(s.inner.values[0].code));
  }

  lemma PumpKeeps(cfg: Config, s: State)
    requires StateOk(s) && s.pumping
    ensures StateOk(Pump(cfg, s))
  {
    hide StateOk, Crash, Abandon, Read, Push, Finish, ReturnSource;
    if s.inner.values == [] {
      if s.inner.error.Some? {
        PumpOutKeeps(s, s.inner.error.value);
      } else if s.inner.done {
        PumpOutKeeps(s, Incomplete);
      }
    } else {
      match s.inner.values[0]
      case AgentEvent =>
        PumpOnKeeps(cfg, s);
      case FailureEvent(_) =>
        PumpFailureKeeps(cfg, s);
      case CompletedEvent(_) =>
        PumpFinalKeeps(cfg, s);
      case ItemEvent(item) =>
        if Accepts(s.outer, cfg.outer, cfg.itemSize(item)) {
          PumpOnKeeps(cfg, s);
        } else {
          PumpOverflowKeeps(cfg, s);
        }
    }
  }

  lemma PumpOnKeeps(cfg: Config, s: State)
    requires StateOk(s) && s.pumping && s.inner.values != []
    requires var e := s.inner.values[0];
      e.AgentEvent? || (e.ItemEvent? && Accepts(s.outer, cfg.outer, cfg.itemSize(e.item)))
    ensures StateOk(Pump(cfg, s))
  {
    ItemsOfPush(s.pumped, s.inner.values[0]);
    ReadKeeps(cfg, s);
    hide Items, Taking;
    PumpOnSink(cfg, s);
    PumpOnRest(cfg, s);
    hide SinkOk, PromiseOk, CompletionKept;
  }

  lemma PumpOnSink(cfg: Config, s: State)
    requires SinkOk(s) && s.pumping && s.inner.values != []
    requires var e := s.inner.values[0];
      e.AgentEvent? || (e.ItemEvent? && Accepts(s.outer, cfg.outer, cfg.itemSize(e.item)))
    ensures SinkOk(Pump(cfg, s))
  {
    ItemsOfPush(s.pumped, s.inner.values[0]);
    hide Items, Taking;
  }

  lemma PumpOnRest(cfg: Config, s: State)
    requires StateOk(s) && s.pumping && s.inner.values != []
    requires var e := s.inner.values[0];
      e.AgentEvent? || (e.ItemEvent? && Accepts(s.outer, cfg.outer, cfg.itemSize(e.item)))
    ensures PromiseOk(Pump(cfg, s)) && CompletionKept(Pump(cfg, s))
  {
    hide Items, SinkOk, Push, SourceOk, PromiseOk, CompletionKept, Pump;
    PumpOnPromise(cfg, s);
    PumpOnCompletion(cfg, s);
  }

  lemma PumpOnPromise(cfg: Config, s: State)
    requires StateOk(s) && s.pumping && s.inner.values != []
    requires var e := s.inner.values[0];
      e.AgentEvent? || (e.ItemEvent? && Accepts(s.outer, cfg.outer, cfg.itemSize(e.item)))
    ensures PromiseOk(Pump(cfg, s))
  {
    hide Items, SinkOk, SourceOk, CompletionKept, Push;
  }

  lemma PumpOnCompletion(cfg: Config, s: State)
    requires StateOk(s) && s.pumping && s.inner.values != []
    requires var e := s.inner.values[0];
      e.AgentEvent? || (e.ItemEvent? && Accepts(s.outer, cfg.outer, cfg.itemSize(e.item)))
    ensures CompletionKept(Pump(cfg, s))
  {
    hide Items, SinkOk, PromiseOk, Push;
    ReadKeeps(cfg, s);
  }

  lemma PumpOverflowKeeps(cfg: Config, s: State)
    requires StateOk(s) && s.pumping && s.inner.values != []
    requires s.inner.values[0].ItemEvent?
    ensures StateOk(Crash(Abandon(Read(cfg, s)), PumpOverflow))
  {
    ItemsOfPush(s.pumped, s.inner.values[0]);
    ReadKeeps(cfg, s);
    var s1 := Read(cfg, s);
    assert SourceOk(Abandon(s1));
    CrashKeeps(Abandon(s1), PumpOverflow);
  }

  lemma NextKeeps(cfg: Config, s: State, step: Step)
    requires StateOk(s)
    ensures StateOk(Next(cfg, s, step))
  {
    hide StateOk, Emit, LoseRoute, Pump, CallerNext, CallerReturn;
    match step
    case EmitStep(e) => EmitKeeps(cfg, s, e);
    case LoseStep => LoseKeeps(s);
    case PumpStep => if s.pumping { PumpKeeps(cfg, s); }
    case NextStep => NextItemKeeps(cfg, s);
    case ReturnStep => ReturnKeeps(s);
  }

  lemma {:induction false} RunKeeps(cfg: Config, s: State, steps: seq<Step>)
    requires StateOk(s)
    ensures StateOk(Run(cfg, s, steps))
    decreases |steps|
  {
    hide StateOk, Next;
    if steps != [] {
      NextKeeps(cfg, s, steps[0]);
      RunKeeps(cfg, Next(cfg, s, steps[0]), steps[1..]);
    }
  }

  // ----- what the caller is promised

  ghost predicate Reaches(cfg: Config, steps: seq<Step>, s: State) {
    s == Run(cfg, Initial(), steps)
  }

  lemma ReachableOk(cfg: Config, steps: seq<Step>, s: State)
    requires Reaches(cfg, steps, s)
    ensures StateOk(s)
  {
    RunKeeps(cfg, Initial(), steps);
  }

  /** The caller sees a prefix of the items the backend emitted: in order, each once. */
  lemma ReceivedIsPrefix(cfg: Config, steps: seq<Step>, s: State)
    requires Reaches(cfg, steps, s)
    ensures s.received <= Items(s.emitted)
  {
    ReachableOk(cfg, steps, s);
    ItemsOfPrefix(s.pumped, s.emitted);
    hide Items;
  }

  /** If `completed` resolves, its result is that of the first terminal event emitted, and
      draining the stream yields every item emitted before it. */
  lemma ResolvedMeansAll(cfg: Config, steps: seq<Step>, s: State, result: Payload)
    requires Reaches(cfg, steps, s) && s.completed == Some(Resolved(result))
    ensures var n := |s.accepted| - 1;
      && 0 <= n < |s.emitted| && s.emitted[n] == CompletedEvent(result)
      && (forall i :: 0 <= i < n ==> !IsFinal(s.emitted[i]))
      && (!s.outerReturned ==> s.received + s.outer.values == Items(s.emitted[..n]) && s.outer.done && s.outer.error.None?)
  {
    ReachableOk(cfg, steps, s);
    hide Items, CompletionKept, Reaches;
    var n := |s.accepted| - 1;
    assert s.accepted == s.emitted[..n] + [s.emitted[n]];
    ItemsOfPush(s.emitted[..n], s.emitted[n]);
  }

  lemma StepLeavesOutcome(cfg: Config, s: State, step: Step)
    requires !s.pumping
    ensures Next(cfg, s, step).completed == s.completed && !Next(cfg, s, step).pumping
  {
    hide Accepts, Push, Fail, Finish, Return, Pump, Emit, CallerReturn;
    if step.EmitStep? {
      EmitLeavesOutcome(cfg, s, step.event);
    } else if step.ReturnStep? {
      ReturnLeavesOutcome(s);
    }
  }

  lemma EmitLeavesOutcome(cfg: Config, s: State, e: Event)
    ensures Emit(cfg, s, e).completed == s.completed && Emit(cfg, s, e).pumping == s.pumping
  {
    hide Accepts, Push, Fail, Finish, Ended;
  }

  lemma ReturnLeavesOutcome(s: State)
    ensures CallerReturn(s).completed == s.completed && CallerReturn(s).pumping == s.pumping
  {
    hide Fail, Return;
  }

  /** `completed` settles when the pump stops, once. */
  lemma {:induction false} SettlesOnce(cfg: Config, s: State, more: seq<Step>)
    requires s.completed.Some? && !s.pumping
    ensures Run(cfg, s, more).completed == s.completed && !Run(cfg, s, more).pumping
    decreases |more|
  {
    if more != [] {
      StepLeavesOutcome(cfg, s, more[0]);
      hide Next;
      SettlesOnce(cfg, Next(cfg, s, more[0]), more[1..]);
    }
  }

  /** A completion the transport has taken is not lost: unless the caller or a full item
      queue abandoned the stream, `completed` is resolved with it or the pump has it ahead
      and is not stuck, and losing the route changes nothing. */
  lemma CompletionIsNotLost(cfg: Config, steps: seq<Step>, s: State, result: Payload)
    requires Reaches(cfg, steps, s) && EndsWith(s.accepted, CompletedEvent(result)) && !s.returnRequested
    ensures LoseRoute(s) == s
    ensures !s.pumping ==> s.completed == Some(Resolved(result))
    ensures s.pumping ==> Take(s.inner).Value? && |Pump(cfg, s).inner.values| < |s.inner.values|
    ensures s.pumping && |s.inner.values| == 1 ==> Pump(cfg, s).completed == Some(Resolved(result))
  {
    ReachableOk(cfg, steps, s);
    hide Items;
  }

  // ----- how a stream ends that is not completed

  /** Why the route's own queue takes nothing more: an error event that was taken, a full
      queue, or a route that was lost, and none of these after a completion. */
  ghost predicate InnerEnding(s: State) {
    && (s.routed ==> s.inner.error.None?)
    && (forall code :: EndsWith(s.accepted, FailureEvent(code)) <==> s.inner.error == Some(Reported(code)))
    && (s.inner.error == Some(Overflow) ==> s.accepted < s.emitted)
    && (s.inner.error.Some? ==> s.inner.error.value.Reported? || s.inner.error.value.Overflow? || s.inner.error.value.RouteLost?)
    && (!s.routed && s.inner.error.None? ==> s.accepted != [] && s.accepted[|s.accepted| - 1].CompletedEvent?)
  }

  /** A rejection says what ended the route's queue, unless the stream was abandoned first,
      and the caller's own queue ends with the same. */
  ghost predicate OuterEnding(s: State) {
    forall reason :: s.completed == Some(Rejected(reason)) ==>
      && (!s.returnRequested ==> s.inner.error == Some(reason))
      && (!s.outerReturned ==> s.outer.error == Some(reason) && s.outer.values == [])
  }

  lemma EmitEnding(cfg: Config, s: State, e: Event)
    requires StateOk(s) && InnerEnding(s) && OuterEnding(s)
    ensures InnerEnding(Emit(cfg, s, e)) && OuterEnding(Emit(cfg, s, e))
  {
    hide Items, SinkOk;
    var s' := Emit(cfg, s, e);
    if s.routed && Accepts(s.inner, cfg.inner, cfg.eventSize(e)) {
      assert s'.accepted[|s'.accepted| - 1] == e;
    } else {
      assert s'.accepted == s.accepted;
      assert s.routed ==> s.accepted == s.emitted && s'.emitted == s.accepted + [e];
    }
  }

  lemma LoseEnding(s: State)
    requires InnerEnding(s)
    requires s.routed ==> IsOpen(s.inner) && (s.accepted == [] || !IsFinal(s.accepted[|s.accepted| - 1]))
    ensures InnerEnding(LoseRoute(s)) && LoseRoute(s).inner.error.Some? == (s.routed || s.inner.error.Some?)
    ensures LoseRoute(s) == s.(inner := LoseRoute(s).inner, routed := false)
  {
  }

  lemma SourceReturned(s: State)
    requires SourceOk(s) && InnerEnding(s)
    ensures InnerEnding(ReturnSource(s))
    ensures !s.routed ==> ReturnSource(s).inner.error == s.inner.error
  {
    LoseEnding(s.(innerReturned := true));
    hide EndsWith;
  }

  lemma FinalIsLast(s: State)
    requires SourceOk(s) && s.inner.values != [] && IsFinal(s.inner.values[0])
    ensures EndsWith(s.accepted, s.inner.values[0])
  {
    assert s.inner.values[0] == s.accepted[|s.pumped|];
  }

  /** An error event never waits in the queue: it has emptied it. */
  lemma NothingButCompletion(s: State)
    requires SourceOk(s) && InnerEnding(s) && s.inner.values != []
    ensures !s.inner.values[0].FailureEvent?
  {
    if s.inner.values[0].FailureEvent? {
      FinalIsLast(s);
      assert false;
    }
  }

  lemma CrashEnding(s: State, reason: Reason)
    requires SourceOk(s) && InnerEnding(s) && s.pumping
    requires s.returnRequested || s.inner.error == Some(reason)
    requires !s.outerReturned ==> IsOpen(s.outer)
    ensures InnerEnding(Crash(s, reason)) && OuterEnding(Crash(s, reason))
  {
    SourceReturned(s);
    hide EndsWith;
  }

  lemma AbandonEnding(s: State)
    requires SourceOk(s) && InnerEnding(s)
    ensures InnerEnding(Abandon(s)) && SourceOk(Abandon(s))
    ensures var s1 := Abandon(s);
      && s1.completed == s.completed && s1.outer == s.outer && s1.outerReturned == s.outerReturned
      && s1.returnRequested && s1.pumping == s.pumping
  {
    LoseEnding(s.(returnRequested := true));
    SourceReturned(LoseRoute(s.(returnRequested := true)));
    hide EndsWith;
  }

  lemma PumpFacts(s: State)
    requires StateOk(s) && InnerEnding(s) && s.pumping
    ensures SourceOk(s) && (!s.outerReturned ==> IsOpen(s.outer))
    ensures s.completed.None? && (Take(s.inner).Over? ==> s.returnRequested)
  {
    hide Items;
  }

  lemma PumpEnding(cfg: Config, s: State)
    requires StateOk(s) && InnerEnding(s) && s.pumping
    ensures InnerEnding(Pump(cfg, s)) && OuterEnding(Pump(cfg, s))
  {
    PumpFacts(s);
    hide StateOk, SourceOk, InnerEnding, OuterEnding, Crash, Read, Abandon;
    match Take(s.inner)
    case Parks => NothingRejected(s);
    case Over => CrashEnding(s, Incomplete);
    case Threw(reason) =>
      assert s.inner.error == Some(reason);
      CrashEnding(s, reason);
    case Value(e) =>
      PumpValueEnding(cfg, s);
  }

  lemma NothingRejected(s: State)
    requires s.completed.None?
    ensures OuterEnding(s)
  {
  }

  lemma PumpValueEnding(cfg: Config, s: State)
    requires StateOk(s) && InnerEnding(s) && s.pumping && s.inner.values != []
    ensures InnerEnding(Pump(cfg, s)) && OuterEnding(Pump(cfg, s))
  {
    var e, s1 := s.inner.values[0], Read(cfg, s);
    NothingButCompletion(s);
    ReadEnding(cfg, s);
    assert s.completed.None? && (!s.outerReturned ==> IsOpen(s.outer));
    hide EndsWith, StateOk, SourceOk, Accepts, InnerEnding, Abandon;
    match e
    case CompletedEvent(result) =>
      SourceReturned(s1.(completed := Some(Resolved(result)), outer := Finish(s1.outer), pumping := false));
    case ItemEvent(item) =>
      AbandonEnding(s1);
      CrashEnding(Abandon(s1), PumpOverflow);
      PushedEnding(s1, Push(s.outer, cfg.outer, cfg.itemSize(item), item), s.offered + [item]);
    case _ =>
  }

  lemma PushedEnding(s: State, outer: Queue<Payload, Reason>, offered: seq<Payload>)
    requires InnerEnding(s)
    ensures InnerEnding(s.(outer := outer, offered := offered))
  {
  }

  lemma ReadEnding(cfg: Config, s: State)
    requires StateOk(s) && InnerEnding(s) && s.pumping && s.inner.values != []
    ensures SourceOk(Read(cfg, s)) && InnerEnding(Read(cfg, s))
  {
    hide Items, SinkOk, EndsWith;
    ReadKeeps(cfg, s);
  }

  lemma ReturnEnding(s: State)
    requires StateOk(s) && InnerEnding(s) && OuterEnding(s)
    ensures InnerEnding(CallerReturn(s)) && OuterEnding(CallerReturn(s))
  {
    hide Items, EndsWith;
    if !s.outerReturned {
      AbandonEnding(s.(outerReturned := true));
    }
  }

  lemma NextEnding(cfg: Config, s: State, step: Step)
    requires StateOk(s) && InnerEnding(s) && OuterEnding(s)
    ensures InnerEnding(Next(cfg, s, step)) && OuterEnding(Next(cfg, s, step))
  {
    hide StateOk, Emit, Pump, CallerReturn, EndsWith;
    match step
    case EmitStep(e) => EmitEnding(cfg, s, e);
    case LoseStep => LostEnding(s);
    case PumpStep => if s.pumping { PumpEnding(cfg, s); }
    case NextStep => NextItemEnding(cfg, s);
    case ReturnStep => ReturnEnding(s);
  }

  lemma LostEnding(s: State)
    requires StateOk(s) && InnerEnding(s) && OuterEnding(s)
    ensures InnerEnding(LoseRoute(s)) && OuterEnding(LoseRoute(s))
  {
    hide Items, EndsWith;
    LoseEnding(s);
  }

  lemma NextItemEnding(cfg: Config, s: State)
    requires InnerEnding(s) && OuterEnding(s)
    ensures InnerEnding(CallerNext(cfg, s)) && OuterEnding(CallerNext(cfg, s))
  {
    hide EndsWith;
  }

  lemma {:induction false} RunEnding(cfg: Config, s: State, steps: seq<Step>)
    requires StateOk(s) && InnerEnding(s) && OuterEnding(s)
    ensures InnerEnding(Run(cfg, s, steps)) && OuterEnding(Run(cfg, s, steps))
    decreases |steps|
  {
    hide StateOk, Next, InnerEnding, OuterEnding;
    if steps != [] {
      NextKeeps(cfg, s, steps[0]);
      NextEnding(cfg, s, steps[0]);
      RunEnding(cfg, Next(cfg, s, steps[0]), steps[1..]);
    }
  }

  /** A rejected completion says why, and the caller's `next` says the same. As long as nobody
      abandoned the stream the reason is the backend's own error if and only if its error
      event was taken, and otherwise a full queue, with an event that was not taken, or a lost
      route; it is never that the stream was incomplete. */
  lemma RejectedSaysWhy(cfg: Config, steps: seq<Step>, s: State, reason: Reason)
    requires Reaches(cfg, steps, s) && s.completed == Some(Rejected(reason))
    ensures !s.outerReturned ==> Take(s.outer) == Threw(reason)
    ensures !s.returnRequested ==>
      && (forall code :: reason == Reported(code) <==> EndsWith(s.accepted, FailureEvent(code)))
      && (reason.Reported? || reason == RouteLost || (reason == Overflow && s.accepted < s.emitted))
  {
    ReachableOk(cfg, steps, s);
    RunEnding(cfg, Initial(), steps);
    hide StateOk, Run, EndsWith;
  }

  // ----- the backend's side: `BackendSession.stream`

  datatype RunEnd = Finished(result: Payload) | Crashed(code: Payload)

  function Ending(end: RunEnd): Event {
    match end
    case Finished(result) => CompletedEvent(result)
    case Crashed(code) => FailureEvent(code)
  }

  /** The generator: one event per run item, then exactly one terminal event, which is the
      last; `end` says how the run ended after its last item. */
  method SessionStream(items: seq<Payload>, end: RunEnd) returns (events: seq<Event>)
    ensures Items(events) == items
    ensures OneEnding(events) && EndsWith(events, Ending(end))
  {
    events := [];
    var i := 0;
    while i < |items|
      invariant 0 <= i <= |items|
      invariant Items(events) == items[..i]
      invariant forall k :: 0 <= k < |events| ==> !IsFinal(events[k])
    {
      ItemsOfPush(events, ItemEvent(items[i]));
      events := events + [ItemEvent(items[i])];
      i := i + 1;
    }
    ItemsOfPush(events, Ending(end));
    events := events + [Ending(end)];
  }

  /** End to end: against a backend that streams a run, `completed` resolves only with the
      run's own result, and then the caller can drain exactly the run's items. */
  lemma StreamIsTheRun(cfg: Config, steps: seq<Step>, s: State, result: Payload, items: seq<Payload>, end: RunEnd)
    requires Reaches(cfg, steps, s) && s.completed == Some(Resolved(result))
    requires Items(s.emitted) == items && OneEnding(s.emitted) && EndsWith(s.emitted, Ending(end))
    ensures end == Finished(result)
    ensures !s.outerReturned ==> s.received + s.outer.values == items
  {
    ResolvedMeansAll(cfg, steps, s, result);
    var n := |s.accepted| - 1;
    assert n == |s.emitted| - 1;
    assert s.emitted == s.emitted[..n] + [s.emitted[n]];
    ItemsOfPush(s.emitted[..n], s.emitted[n]);
    hide Items, Reaches;
  }
}
