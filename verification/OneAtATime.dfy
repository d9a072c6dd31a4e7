/**
 One call at a time, seen from the backend. In single-flight and legacy mode a slot keeps a
 second caller from becoming pending; whether it keeps a second line from a backend that is
 still at work on the first is another matter, and depends on how the first one ends.
*/
module OneAtATime {
  import opened Handshakes
  import opened Routes
  import opened Steadiness
  import opened Transport
  import opened TransportInvariant
  import opened TransportTheorems
  import opened Wire
  import opened WriteQueue

  /** The callers' lines that the current child has been handed and has not answered to the
      end, by the serial of their write: a history the transport does not keep. */
  type InHand = set<nat>

  /** The line that a step hands to the child's stdin. */
  function Handed(s: State, step: Step): InHand
    requires Enabled(s, step)
  {
    if step.BeginWriteStep? && MayStart(s, Chain(s.writes, step.retired)[0]) && Chain(s.writes, step.retired)[0].id.Caller?
    then {Chain(s.writes, step.retired)[0].serial} else {}
  }

  /** The line that a frame answers to the end, by what the transport holds its id for. */
  function AnsweredBy(s: State, step: Step): InHand {
    match step
    case ResponseStep(id, _, _) =>
      if id in s.routes.pendingResponses then {s.routes.pendingResponses[id].serial}
      else if id in s.tombstones && s.tombstones[id].kind == Unary then {s.tombstones[id].serial} else {}
    case EventStep(id, t, _, _) =>
      if !IsTerminal(t) then {}
      else if id in s.routes.pendingStreams then {s.routes.pendingStreams[id].serial}
      else if id in s.tombstones && s.tombstones[id].kind == Stream then {s.tombstones[id].serial} else {}
    case _ => {}
  }

  function Track(cfg: Config, s: State, step: Step, hand: InHand): InHand
    requires Enabled(s, step)
  {
    if Next(cfg, s, step).child != s.child then {} else hand + Handed(s, step) - AnsweredBy(s, step)
  }

  /** A caller waits for the answer to this line. */
  predicate IsAwaited(r: Routes, x: nat) {
    (exists id :: id in r.pendingResponses && id.Caller? && r.pendingResponses[id].serial == x)
    || (exists id :: id in r.pendingStreams && id.Caller? && r.pendingStreams[id].serial == x)
  }

  ghost predicate AllAwaited(s: State, hand: InHand) {
    (s.child.None? ==> hand == {}) && forall x :: x in hand ==> IsAwaited(s.routes, x)
  }

  predicate AwaitedUnder(r: Routes, id: RequestId, hand: InHand) {
    IsPending(r, id) && id.Caller? && PendingOf(r, id).serial in hand
  }

  /** The route that the handler of a failed write finds, by kind and id. */
  predicate Finds(r: Routes, a: Admission) {
    if a.kind == Unary then a.id in r.pendingResponses else a.id in r.pendingStreams
  }

  /** How a caller can be let go while the child is still at its line: a cancel or a plain
      deadline after the line's callback has come, a failing callback, an event that finds
      the stream's queue full; and, for an id that has been given to another call, a stale
      line that fails or is written in its place. */
  predicate LetsGo(s: State, step: Step, hand: InHand)
    requires Enabled(s, step)
  {
    match step
    case CancelStep(id, _) => AwaitedUnder(s.routes, id, hand) && !HasStartedWrite(s, id)
    case DeadlineStep(id) => AwaitedUnder(s.routes, id, hand) && !PendingOf(s.routes, id).slot && !HasStartedWrite(s, id)
    case EventStep(id, t, accepted, _) =>
      id in s.routes.pendingStreams && AwaitedUnder(s.routes, id, hand) && !accepted && !IsTerminal(t)
    case EndWriteStep(retired, ok) =>
      var a := Chain(s.writes, retired)[0];
      !ok && Finds(s.routes, a) && AwaitedUnder(s.routes, a.id, hand)
    case BeginWriteStep(retired) =>
      var a := Chain(s.writes, retired)[0];
      if MayStart(s, a) then a.id.Caller? && !IsAwaitedUnder(s.routes, a)
      else Finds(s.routes, a) && AwaitedUnder(s.routes, a.id, hand)
    case _ => false
  }

  /** The line is the one its id's route waits for. */
  predicate IsAwaitedUnder(r: Routes, a: Admission) {
    IsPending(r, a.id) && PendingOf(r, a.id).serial == a.serial
  }

  lemma AwaitedBy(r: Routes, id: RequestId)
    requires IsPending(r, id) && id.Caller?
    ensures IsAwaited(r, PendingOf(r, id).serial)
  {
  }

  lemma WhoAwaits(r: Routes, x: nat) returns (id: RequestId)
    requires IsAwaited(r, x) && forall id :: !(id in r.pendingResponses && id in r.pendingStreams)
    ensures IsPending(r, id) && id.Caller? && PendingOf(r, id).serial == x
  {
    if i: RequestId :| i in r.pendingResponses && i.Caller? && r.pendingResponses[i].serial == x {
      id := i;
    } else {
      id :| id in r.pendingStreams && id.Caller? && r.pendingStreams[id].serial == x;
    }
  }

  lemma KindsAreDisjoint(cfg: Config, s: State)
    requires StateOk(cfg, s)
    ensures forall id :: !(id in s.routes.pendingResponses && id in s.routes.pendingStreams)
  {
    forall id
      ensures !(id in s.routes.pendingResponses && id in s.routes.pendingStreams)
    {
      assert IdOk(s.routes, id);
    }
  }

  // ----- nothing else lets a caller go

  lemma TerminatedHasNoChild(s: State)
    ensures Terminate(s).child.None?
  {
    hide FailAll, Retire;
  }

  lemma CancelDone(cfg: Config, s: State, id: RequestId, rejection: bool)
    requires IsPending(s.routes, id) && !IsWaiting(s.routes, id) && HasStartedWrite(s, id)
    ensures Cancel(cfg, s, id, rejection).child.None?
  {
    hide ClearPending, Terminate, HasStartedWrite;
    TerminatedHasNoChild(ClearPending(cfg, s, id, true, Broken(rejection)));
  }

  lemma ClearSpares(cfg: Config, s: State, id: RequestId, after: Handshake)
    requires IsPending(s.routes, id) && |s.tombstones| < cfg.tombstoneLimit && !s.protocolQuarantined
    ensures ClearPending(cfg, s, id, true, after).child == s.child
  {
    hide DropPending, Terminate;
  }

  /** But a call whose line is not being written goes alone: cancelled, or timed out without
      the slot, it leaves the child to the others, as long as there is room for its tombstone
      and no quarantine waits for it to go. */
  lemma GoesAlone(cfg: Config, s: State, id: RequestId, rejection: bool)
    requires IsPending(s.routes, id) && !HasStartedWrite(s, id)
    requires |s.tombstones| < cfg.tombstoneLimit && !s.protocolQuarantined
    ensures !IsWaiting(s.routes, id) ==> Cancel(cfg, s, id, rejection).child == s.child
    ensures id.Caller? && !PendingOf(s.routes, id).slot ==> Deadline(cfg, s, id).child == s.child
  {
    ClearSpares(cfg, s, id, Broken(rejection));
    ClearSpares(cfg, s, id, Broken(false));
    hide ClearPending, Terminate, HasStartedWrite;
  }

  lemma DeadlineDone(cfg: Config, s: State, id: RequestId)
    requires IsPending(s.routes, id) && (PendingOf(s.routes, id).slot || HasStartedWrite(s, id))
    ensures Deadline(cfg, s, id).child.None?
  {
    hide ClearPending, Terminate, HasStartedWrite;
    TerminatedHasNoChild(ClearPending(cfg, s, id, true, Broken(false)));
  }

  lemma ResponseDone(cfg: Config, s: State, id: RequestId, reply: Reply, serial: nat)
    requires s.child.Some? && id in s.routes.pendingStreams && id !in s.routes.pendingResponses
    ensures HandleResponse(cfg, s, id, reply, serial).child.None?
  {
    hide Terminate;
    TerminatedHasNoChild(s);
  }

  lemma EventDone(cfg: Config, s: State, id: RequestId, t: EventType, accepted: bool, serial: nat)
    requires s.child.Some? && id in s.routes.pendingResponses && id !in s.routes.pendingStreams
    ensures HandleEvent(cfg, s, id, t, accepted, serial).child.None?
  {
    hide Terminate;
    TerminatedHasNoChild(s);
  }

  lemma BeginDone(cfg: Config, s: State, retired: bool)
    requires Chain(s.writes, retired) != []
    requires var a := Chain(s.writes, retired)[0]; !MayStart(s, a) && !Finds(s.routes, a)
    ensures BeginWrite(cfg, s, retired).routes == s.routes
  {
    hide MayStart, Release;
  }

  lemma EndDone(cfg: Config, s: State, retired: bool, ok: bool)
    requires Chain(s.writes, retired) != [] && !Finds(s.routes, Chain(s.writes, retired)[0])
    ensures EndWrite(cfg, s, retired, ok).routes == s.routes
  {
    hide Release;
  }

  predicate IsDone(s: State, step: Step, s': State, id: RequestId)
    requires IsPending(s.routes, id)
  {
    s'.child.None? || PendingOf(s.routes, id).serial in AnsweredBy(s, step) || SameRoute(s.routes, s'.routes, id)
  }

  /** The callers a step may clear are answered, or take the child along. */
  lemma ClearedAreDone(cfg: Config, s: State, step: Step, hand: InHand, id: RequestId)
    requires ValidConfig(cfg) && StateOk(cfg, s) && Enabled(s, step) && !LetsGo(s, step, hand)
    requires AwaitedUnder(s.routes, id, hand) && id in Clears(s, step)
    ensures IsDone(s, step, Next(cfg, s, step), id)
  {
    StateFacts(cfg, s);
    KindsAreDisjoint(cfg, s);
    hide StateOk, Cancel, Deadline, HandleResponse, HandleEvent, BeginWrite, EndWrite, MayStart, HasStartedWrite;
    match step
    case CancelStep(x, rejection) => CancelDone(cfg, s, id, rejection);
    case DeadlineStep(x) => DeadlineDone(cfg, s, id);
    case ResponseStep(x, reply, serial) =>
      if id !in s.routes.pendingResponses {
        ResponseDone(cfg, s, id, reply, serial);
      }
    case EventStep(x, t, accepted, serial) =>
      if id !in s.routes.pendingStreams {
        EventDone(cfg, s, id, t, accepted, serial);
      }
    case BeginWriteStep(retired) =>
      if !MayStart(s, Chain(s.writes, retired)[0]) {
        BeginDone(cfg, s, retired);
      }
    case EndWriteStep(retired, ok) =>
      EndDone(cfg, s, retired, ok);
    case _ =>
  }

  lemma RoutesSurvive(s: State, s': State, step: Step, hand: InHand, gone: set<RequestId>, x: nat)
    requires (forall id :: !(id in s.routes.pendingResponses && id in s.routes.pendingStreams))
    requires CallersStay(s, s', gone) && AllAwaited(s, hand) && x in hand && x !in AnsweredBy(s, step) && s'.child.Some?
    requires forall id :: id in gone && AwaitedUnder(s.routes, id, hand) ==> IsDone(s, step, s', id)
    ensures IsAwaited(s'.routes, x)
  {
    hide AnsweredBy;
    var id := WhoAwaits(s.routes, x);
    assert SameRoute(s.routes, s'.routes, id);
    AwaitedBy(s'.routes, id);
  }

  /** What a step does to the pending callers. */
  lemma NextCallersStay(cfg: Config, s: State, step: Step)
    requires ValidConfig(cfg) && StateOk(cfg, s) && Enabled(s, step)
    ensures var s' := Next(cfg, s, step);
      s.child.Some? && s'.child == s.child ==> CallersStay(s, s', Clears(s, step))
  {
    hide StateOk, Next, Enabled, Clears, CallersStay, Proper;
    if step.ContinueStep? {
      IsContinue(cfg, s, step);
      ContinueKept(cfg, s);
      FewerStay(s, Next(cfg, s, step), Clears(s, step));
    } else if IsAnswer(s, step) {
      AnswerKept(cfg, s, step);
      FewerStay(s, Next(cfg, s, step), Clears(s, step));
    } else {
      NextSteady(cfg, s, step);
    }
  }

  lemma IsContinue(cfg: Config, s: State, step: Step)
    requires Enabled(s, step) && step.ContinueStep?
    ensures MicrotaskDue(s) && Next(cfg, s, step) == ContinueHandshake(cfg, s)
  {
  }

  lemma FewerStay(s: State, s': State, gone: set<RequestId>)
    ensures CallersStay(s, s', {}) ==> CallersStay(s, s', gone)
  {
  }

  lemma StartedRoutes(cfg: Config, s: State, retired: bool)
    requires Chain(s.writes, retired) != [] && MayStart(s, Chain(s.writes, retired)[0])
    ensures BeginWrite(cfg, s, retired).routes == s.routes && BeginWrite(cfg, s, retired).child == s.child
  {
    hide MayStart, MarkStarted;
  }

  lemma HandedIsAwaited(cfg: Config, s: State, step: Step, hand: InHand)
    requires Enabled(s, step) && !LetsGo(s, step, hand)
    ensures forall x :: x in Handed(s, step) ==> IsAwaited(Next(cfg, s, step).routes, x) && s.child.Some?
  {
    if step.BeginWriteStep? && MayStart(s, Chain(s.writes, step.retired)[0]) {
      var a := Chain(s.writes, step.retired)[0];
      StartedRoutes(cfg, s, step.retired);
      assert s.child.Some?;
      hide MayStart, BeginWrite;
      if a.id.Caller? {
        AwaitedBy(s.routes, a.id);
      }
    }
  }

  /** Every step that lets nobody go: whatever line the child is still at, a caller waits
      for its answer. */
  lemma NextAwaited(cfg: Config, s: State, step: Step, hand: InHand)
    requires ValidConfig(cfg) && StateOk(cfg, s) && AllAwaited(s, hand) && Enabled(s, step) && !LetsGo(s, step, hand)
    ensures AllAwaited(Next(cfg, s, step), Track(cfg, s, step, hand))
  {
    var s', hand' := Next(cfg, s, step), Track(cfg, s, step, hand);
    KindsAreDisjoint(cfg, s);
    NextCallersStay(cfg, s, step);
    HandedIsAwaited(cfg, s, step, hand);
    hide StateOk, Next, Enabled, Clears, CallersStay, LetsGo, AnsweredBy, Handed, IsAwaited, IsDone;
    if s'.child == s.child {
      forall x | x in hand'
        ensures IsAwaited(s'.routes, x) && s.child.Some?
      {
        if x in hand {
          forall id | id in Clears(s, step) && AwaitedUnder(s.routes, id, hand)
            ensures IsDone(s, step, s', id)
          {
            ClearedAreDone(cfg, s, step, hand, id);
          }
          RoutesSurvive(s, s', step, hand, Clears(s, step), x);
        }
      }
    }
  }

  // ----- and each of these ways does

  lemma ClearedRoutes(cfg: Config, s: State, id: RequestId, tombstone: bool, after: Handshake)
    requires IsPending(s.routes, id)
    ensures var s' := ClearPending(cfg, s, id, tombstone, after); s'.child.Some? ==> s'.routes == DropPending(s.routes, id)
  {
    hide FailAll, Retire, DropPending;
  }

  /** The only caller pending is cleared, so nobody waits for its line. */
  lemma NobodyAwaits(r: Routes, id: RequestId, x: nat)
    requires IsPending(r, id) && forall y: RequestId :: y.Caller? && IsPending(r, y) ==> y == id
    ensures !IsAwaited(DropPending(r, id), x)
  {
  }

  lemma CancelLeaves(cfg: Config, s: State, id: RequestId, rejection: bool)
    requires IsPending(s.routes, id) && !IsWaiting(s.routes, id)
    ensures var s' := Cancel(cfg, s, id, rejection); s'.child.Some? ==> s'.routes == DropPending(s.routes, id)
  {
    ClearedRoutes(cfg, s, id, true, Broken(rejection));
    TerminatedHasNoChild(ClearPending(cfg, s, id, true, Broken(rejection)));
    hide ClearPending, Terminate, HasStartedWrite;
  }

  lemma DeadlineLeaves(cfg: Config, s: State, id: RequestId)
    requires IsPending(s.routes, id)
    ensures var s' := Deadline(cfg, s, id); s'.child.Some? ==> s'.routes == DropPending(s.routes, id)
  {
    ClearedRoutes(cfg, s, id, true, Broken(false));
    TerminatedHasNoChild(ClearPending(cfg, s, id, true, Broken(false)));
    hide ClearPending, Terminate, HasStartedWrite;
  }

  lemma OverflowLeaves(cfg: Config, s: State, id: RequestId, t: EventType, serial: nat)
    requires s.child.Some? && id in s.routes.pendingStreams
    ensures var s' := HandleEvent(cfg, s, id, t, false, serial); s'.child.Some? ==> s'.routes == DropPending(s.routes, id)
  {
    ClearedRoutes(cfg, s, id, true, Broken(false));
    hide ClearPending;
  }

  lemma FailureLeaves(cfg: Config, s: State, retired: bool)
    requires Chain(s.writes, retired) != [] && Finds(s.routes, Chain(s.writes, retired)[0])
    ensures var a := Chain(s.writes, retired)[0];
      && (var s' := EndWrite(cfg, s, retired, false); s'.child.Some? ==> s'.routes == DropPending(s.routes, a.id))
      && (var s' := BeginWrite(cfg, s, retired); !MayStart(s, a) && s'.child.Some? ==> s'.routes == DropPending(s.routes, a.id))
  {
    var a := Chain(s.writes, retired)[0];
    var s1 := s.(writes := Release(s.writes, retired));
    ClearedRoutes(cfg, s1, a.id, true, Broken(false));
    ClearedRoutes(cfg, s1, a.id, false, Broken(false));
    hide ClearPending, Release, MayStart;
  }

  /** Which line is left behind. */
  function LeftBehind(s: State, step: Step): nat
    requires Enabled(s, step)
  {
    match step
    case CancelStep(id, _) => if IsPending(s.routes, id) then PendingOf(s.routes, id).serial else 0
    case DeadlineStep(id) => PendingOf(s.routes, id).serial
    case EventStep(id, _, _, _) => if IsPending(s.routes, id) then PendingOf(s.routes, id).serial else 0
    case EndWriteStep(retired, _) =>
      var id := Chain(s.writes, retired)[0].id;
      if IsPending(s.routes, id) then PendingOf(s.routes, id).serial else 0
    case BeginWriteStep(retired) =>
      var a := Chain(s.writes, retired)[0];
      if MayStart(s, a) then a.serial else if IsPending(s.routes, a.id) then PendingOf(s.routes, a.id).serial else 0
    case _ => 0
  }

  /** In single-flight and legacy mode each of them leaves the slot to others although the
      child is still at the line. */
  lemma LettingGoFrees(cfg: Config, s: State, step: Step, hand: InHand)
    requires ValidConfig(cfg) && StateOk(cfg, s) && AllAwaited(s, hand) && Enabled(s, step) && LetsGo(s, step, hand)
    requires IsSingleFlight(s.handshakeState) && Next(cfg, s, step).child == s.child && s.child.Some?
    ensures !IsAwaited(Next(cfg, s, step).routes, LeftBehind(s, step)) && LeftBehind(s, step) in Track(cfg, s, step, hand)
  {
    StateFacts(cfg, s);
    KindsAreDisjoint(cfg, s);
    OneCaller(cfg, s);
    hide StateOk, Cancel, Deadline, HandleEvent, BeginWrite, EndWrite, MayStart, HasStartedWrite, IsAwaited, DropPending;
    match step
    case CancelStep(id, rejection) =>
      CancelLeaves(cfg, s, id, rejection);
      NobodyAwaits(s.routes, id, LeftBehind(s, step));
    case DeadlineStep(id) =>
      DeadlineLeaves(cfg, s, id);
      NobodyAwaits(s.routes, id, LeftBehind(s, step));
    case EventStep(id, t, accepted, serial) =>
      OverflowLeaves(cfg, s, id, t, serial);
      NobodyAwaits(s.routes, id, LeftBehind(s, step));
    case EndWriteStep(retired, ok) =>
      FailureLeaves(cfg, s, retired);
      NobodyAwaits(s.routes, Chain(s.writes, retired)[0].id, LeftBehind(s, step));
    case BeginWriteStep(retired) =>
      var a := Chain(s.writes, retired)[0];
      if MayStart(s, a) {
        StartedRoutes(cfg, s, retired);
        AnotherIsAwaited(s, a);
      } else {
        FailureLeaves(cfg, s, retired);
        NobodyAwaits(s.routes, a.id, LeftBehind(s, step));
      }
    case _ =>
  }

  lemma AnotherIsAwaited(s: State, a: Admission)
    requires IsPending(s.routes, a.id) && !IsAwaitedUnder(s.routes, a)
    requires forall id :: !(id in s.routes.pendingResponses && id in s.routes.pendingStreams)
    requires forall y: RequestId :: y.Caller? && IsPending(s.routes, y) ==> y == a.id
    ensures !IsAwaited(s.routes, a.serial)
  {
    if IsAwaited(s.routes, a.serial) {
      var id := WhoAwaits(s.routes, a.serial);
      assert false;
    }
  }

  lemma OneCaller(cfg: Config, s: State)
    requires StateOk(cfg, s) && IsSingleFlight(s.handshakeState)
    ensures forall x: RequestId, y: RequestId ::
      x.Caller? && IsPending(s.routes, x) && y.Caller? && IsPending(s.routes, y) ==> x == y
  {
    forall x: RequestId, y: RequestId | x.Caller? && IsPending(s.routes, x) && y.Caller? && IsPending(s.routes, y)
      ensures x == y
    {
      PendingFacts(s, x);
      PendingFacts(s, y);
    }
  }

  // ----- the claims

  /** A run with its history. */
  function Watch(cfg: Config, s: State, hand: InHand, steps: seq<Step>): Option<(State, InHand)>
    decreases |steps|
  {
    if steps == [] then Some((s, hand))
    else if !Enabled(s, steps[0]) then None
    else Watch(cfg, Next(cfg, s, steps[0]), Track(cfg, s, steps[0], hand), steps[1..])
  }

  predicate NobodyIsLetGo(cfg: Config, s: State, hand: InHand, steps: seq<Step>)
    decreases |steps|
  {
    steps != [] && Enabled(s, steps[0]) ==>
      && !LetsGo(s, steps[0], hand)
      && NobodyIsLetGo(cfg, Next(cfg, s, steps[0]), Track(cfg, s, steps[0], hand), steps[1..])
  }

  lemma {:induction false} WatchKeeps(cfg: Config, s: State, hand: InHand, steps: seq<Step>)
    requires ValidConfig(cfg) && StateOk(cfg, s) && AllAwaited(s, hand) && NobodyIsLetGo(cfg, s, hand, steps)
    ensures Watch(cfg, s, hand, steps).Some? ==>
      var (s', hand') := Watch(cfg, s, hand, steps).value; StateOk(cfg, s') && AllAwaited(s', hand')
    decreases |steps|
  {
    hide StateOk, AllAwaited, Next, Enabled, Track, LetsGo;
    if steps != [] && Enabled(s, steps[0]) {
      NextKeeps(cfg, s, steps[0]);
      NextAwaited(cfg, s, steps[0], hand);
      WatchKeeps(cfg, Next(cfg, s, steps[0]), Track(cfg, s, steps[0], hand), steps[1..]);
    }
  }

  lemma {:induction false} WatchIsListen(cfg: Config, s: State, hand: InHand, heard: Heard, steps: seq<Step>)
    requires Watch(cfg, s, hand, steps).Some? && Listen(cfg, s, heard, steps).Some?
    ensures Watch(cfg, s, hand, steps).value.0 == Listen(cfg, s, heard, steps).value.0
    decreases |steps|
  {
    hide Next, Enabled, Track, Hear;
    if steps != [] {
      var s' := Next(cfg, s, steps[0]);
      WatchIsListen(cfg, s', Track(cfg, s, steps[0], hand), Hear(s, steps[0], s', heard), steps[1..]);
    }
  }

  ghost predicate Watches(cfg: Config, steps: seq<Step>, s: State, hand: InHand) {
    ValidConfig(cfg) && Watch(cfg, INITIAL, {}, steps) == Some((s, hand))
  }

  /** A backend that has not offered multiplexing is never at work on two callers' lines, in
      every run in which no caller is let go while it is still at the line. */
  lemma OneLineAtATime(cfg: Config, steps: seq<Step>, s: State, hand: InHand, heard: Heard, x: nat, y: nat)
    requires Watches(cfg, steps, s, hand) && Hears(cfg, steps, s, heard)
    requires NobodyIsLetGo(cfg, INITIAL, {}, steps) && (s.child.Some? ==> StandingOf(heard) != Multiplexed)
    requires x in hand && y in hand
    ensures x == y
  {
    InitialOk(cfg);
    hide StateOk, Watch, Hears, NobodyIsLetGo, StandingOf;
    WatchKeeps(cfg, INITIAL, {}, steps);
    KindsAreDisjoint(cfg, s);
    var a := WhoAwaits(s.routes, x);
    var b := WhoAwaits(s.routes, y);
    UnlessMultiplexedOneCaller(cfg, steps, s, heard, a, b);
  }

  /** And no further: in single-flight and legacy mode, as long as the child stays, a caller
      waits for every line the child is at after a step if and only if the step lets nobody go. */
  lemma LettingGoExactly(cfg: Config, s: State, step: Step, hand: InHand)
    requires ValidConfig(cfg) && StateOk(cfg, s) && AllAwaited(s, hand) && Enabled(s, step)
    requires IsSingleFlight(s.handshakeState) && s.child.Some? && Next(cfg, s, step).child == s.child
    ensures AllAwaited(Next(cfg, s, step), Track(cfg, s, step, hand)) <==> !LetsGo(s, step, hand)
  {
    hide StateOk, Next, Enabled, Track, LetsGo, IsAwaited;
    if LetsGo(s, step, hand) {
      LettingGoFrees(cfg, s, step, hand);
    } else {
      NextAwaited(cfg, s, step, hand);
    }
  }
}
