/**
 `StdioBackendTransport` as a stepped system. One step is a synchronous run up to the
 next await: a caller's call, a promise continuation, a timer, a stdin callback, a line
 of stdout, or the end of the child. The steps interleave arbitrarily, except that no
 timer or I/O event runs while the handshake's own continuation is due, because
 microtasks drain first. A rejection and the rejected caller's cleanup are one step.
*/
module Transport {
  import opened Ledger
  import opened Routes
  import opened Wire
  import opened WriteQueue

  datatype Config = Config(
    maxInFlight: nat,
    writes: WriteLimits,
    tombstoneLimit: nat,
    quarantineLimit: nat,
    frameLimitBytes: nat,
    helloBytes: nat,          // encoded length of the hello and of a legacy probe
    probeBytes: nat)

  /** `validateTransportOptions`: one slot beside the caller's is always configured. */
  predicate ValidConfig(cfg: Config) {
    && cfg.maxInFlight >= 2
    && cfg.writes.count >= 1 && cfg.writes.bytes >= 1
    && cfg.tombstoneLimit >= 1 && cfg.quarantineLimit >= 1 && cfg.frameLimitBytes >= 1
  }

  datatype HandshakeState = Unknown | Ready | SingleFlight | Legacy | Blocked

  datatype Stage = Hello | LegacyVersion | LegacyCapabilities(versionOk: bool)

  /** `handshakePromise` and what it is waiting for. */
  datatype Handshake =
    | NoHandshake
    | Probing(id: RequestId, stage: Stage)       // a control route is pending
    | Answered(stage: Stage, reply: Reply)       // its response came; the continuation is due
    | Broken(rejected: bool)                     // it failed; the catch handler is due

  datatype Tombstone = Tombstone(kind: Kind, serial: nat)

  /** A frame handed to a route: the write the route was issued with, and the write the
      backend says it answers, each with its child generation. */
  datatype Delivery = Delivery(routeSerial: nat, routeChild: nat, frameSerial: nat, frameChild: nat)

  datatype State = State(
    child: Option<nat>,       // generation of the current child
    spawned: nat,
    closed: bool,
    handshakeState: HandshakeState,
    handshake: Handshake,
    handshakeGeneration: nat,
    routes: Routes,
    writes: Writes,
    tombstones: map<RequestId, Tombstone>,
    quarantinedRequestIds: set<RequestId>,
    protocolQuarantined: bool,
    serials: nat,             // writes issued so far
    negotiated: set<nat>,     // history: children whose hello or legacy probes succeeded
    callerWrites: set<nat>,   // history: children that were handed a caller's line
    deliveries: set<Delivery>)

  const INITIAL := State(None, 0, false, Unknown, NoHandshake, 0, NO_ROUTES, NO_WRITES,
                         map[], {}, false, 0, {}, {}, {})

  predicate IsSingleFlight(h: HandshakeState) {
    h == SingleFlight || h == Legacy
  }

  predicate IsWorking(h: HandshakeState) {
    h == Ready || IsSingleFlight(h)
  }

  predicate MicrotaskDue(s: State) {
    s.handshake.Answered? || s.handshake.Broken?
  }

  // ----- admission

  function AdmissionLimit(cfg: Config, s: State, control: bool): int {
    if !control && s.handshakeState == Unknown && s.routes.activeControlRequestIds == {}
    then cfg.maxInFlight - 1
    else cfg.maxInFlight
  }

  predicate HasCapacity(cfg: Config, s: State, control: bool) {
    Admitted(s.routes) < AdmissionLimit(cfg, s, control)
  }

  /** `validateRequestId`. */
  predicate IsFreeId(s: State, id: RequestId, control: bool) {
    && !s.closed && IsValidId(id) && (control || id.Caller?)
    && !s.protocolQuarantined
    && id !in s.routes.activeRequestIds && id !in s.routes.waitingAdmissionIds
    && id !in s.tombstones && id !in s.quarantinedRequestIds
  }

  /** `promoteWaitingAdmission` gives the waiting slot up before it reserves the active one. */
  predicate CanPromote(cfg: Config, s: State, id: RequestId) {
    var s1 := s.(routes := s.routes.(waitingAdmissionIds := s.routes.waitingAdmissionIds - {id}));
    id in s.routes.waitingAdmissionIds && IsFreeId(s1, id, false) && HasCapacity(cfg, s1, false)
  }

  predicate CanIssue(s: State) {
    !s.closed && !s.protocolQuarantined && s.handshakeState != Blocked && s.child.Some?
  }

  // ----- teardown

  function FailRoutes(s: State): State {
    s.(routes := FailAll(s.routes), handshake := if s.handshake.Probing? then Broken(false) else s.handshake)
  }

  /** `terminate` and `handleProcessFailure` leave the same state behind. */
  function Terminate(s: State): State {
    if s.child.None? then FailRoutes(s)
    else
      FailRoutes(s.(
        child := None,
        handshakeState := Unknown,
        writes := Retire(s.writes, s.child.value),
        protocolQuarantined := false,
        tombstones := map[],
        quarantinedRequestIds := {}))
  }

  function RecycleQuarantined(s: State): State {
    if !s.protocolQuarantined then s
    else if s.child.None? then s.(protocolQuarantined := false)
    else Terminate(s.(protocolQuarantined := false))
  }

  predicate NoCallers(r: Routes) {
    r.pendingResponses == map[] && r.pendingStreams == map[] && r.waitingRequests == map[] && r.waitingStreams == map[]
  }

  function MaybeRecycle(s: State): State {
    if s.protocolQuarantined && s.handshake.NoHandshake? && NoCallers(s.routes) then RecycleQuarantined(s) else s
  }

  function AddTombstone(cfg: Config, s: State, id: RequestId, t: Tombstone): State {
    if |s.tombstones| >= cfg.tombstoneLimit && id !in s.tombstones then Terminate(s)
    else s.(tombstones := s.tombstones[id := t])
  }

  /** `clearResponse` or `clearStream` together with what the settled promise triggers:
      the slot moves on, and a control route's handshake goes to `after`. */
  function ClearPending(cfg: Config, s: State, id: RequestId, tombstone: bool, after: Handshake): State
    requires IsPending(s.routes, id)
  {
    var t := Tombstone(if id in s.routes.pendingResponses then Unary else Stream, PendingOf(s.routes, id).serial);
    var probed := s.handshake.Probing? && s.handshake.id == id;
    var s1 := s.(routes := DropPending(s.routes, id), handshake := if probed then after else s.handshake);
    MaybeRecycle(if tombstone then AddTombstone(cfg, s1, id, t) else s1)
  }

  // ----- issuing

  predicate CanWrite(cfg: Config, s: State, line: Line) {
    && s.child.Some? && !s.closed && line.encodable && line.bytes <= cfg.frameLimitBytes
    && HasRoom(s.writes, cfg.writes, line.bytes)
  }

  /** `write` up to its first await. Whatever it refuses synchronously is known never to
      have reached stdin, so the route is rejected without a tombstone. */
  function Submit(cfg: Config, s: State, id: RequestId, kind: Kind, line: Line, serial: nat): State
    requires IsPending(s.routes, id)
  {
    if CanWrite(cfg, s, line)
    then s.(writes := Charge(s.writes, Admission(id, kind, serial, line.bytes, s.child.value, false)))
    else ClearPending(cfg, s, id, false, Broken(false))
  }

  function Issue(cfg: Config, s: State, id: RequestId, slot: bool): State
    requires IsWaiting(s.routes, id) && s.child.Some?
  {
    var kind := if id in s.routes.waitingRequests then Unary else Stream;
    var line := WaitingOf(s.routes, id).line;
    var s1 := s.(routes := Launch(s.routes, id, s.serials, s.child.value, slot), serials := s.serials + 1);
    Submit(cfg, s1, id, kind, line, s.serials)
  }

  function RejectWaiting(s: State, id: RequestId, granted: bool): State
    requires IsWaiting(s.routes, id)
  {
    s.(routes := DropWaiting(s.routes, id, granted))
  }

  // ----- handshake

  function Spawn(s: State): State {
    s.(child := Some(s.spawned), spawned := s.spawned + 1, handshakeState := Unknown,
       routes := s.routes.(activeControlRequestIds := {}, slots := []),
       protocolQuarantined := false, tombstones := map[], quarantinedRequestIds := {})
  }

  function ControlId(s: State): RequestId {
    Control(s.handshakeGeneration + 1)
  }

  /** A hello or a legacy probe: its id is minted even when it cannot be reserved. */
  function Probe(cfg: Config, s: State, stage: Stage): (State, bool) {
    var id := ControlId(s);
    var s1 := s.(handshakeGeneration := s.handshakeGeneration + 1);
    if !IsFreeId(s1, id, true) || !HasCapacity(cfg, s1, true) then (s1, false)
    else
      var child := if s.child.Some? then s.child.value else 0;
      var s2 := s1.(routes := OpenControl(s.routes, id, s.serials, child),
                    serials := s.serials + 1,
                    handshake := Probing(id, stage));
      (Submit(cfg, s2, id, Unary, Line(if stage == Hello then cfg.helloBytes else cfg.probeBytes, true), s.serials), true)
  }

  datatype Verdict = Resolved | Rejected | Awaited

  function EnsureHandshake(cfg: Config, s: State): (State, Verdict) {
    if s.closed then (s, Rejected)
    else if IsWorking(s.handshakeState) then (s, Resolved)
    else if s.handshakeState == Blocked then (s, Rejected)
    else if !s.handshake.NoHandshake? then (s, Awaited)
    else if s.writes.recycleBlocked then (s, Rejected)
    else
      var (s1, started) := Probe(cfg, if s.child.None? then Spawn(s) else s, Hello);
      (s1, if started then Awaited else Rejected)
  }

  /** What a caller does with the promise `EnsureHandshake` returned. */
  function AfterEnsure(s: State, v: Verdict, id: RequestId): State
    requires IsWaiting(s.routes, id)
  {
    match v
    case Resolved => s.(routes := SetPhase(s.routes, id, Released(true)))
    case Rejected => RejectWaiting(s, id, false)
    case Awaited => s.(routes := SetPhase(s.routes, id, AwaitingHandshake))
  }

  function Succeed(s: State, h: HandshakeState): State {
    MaybeRecycle(s.(
      handshakeState := h,
      handshake := NoHandshake,
      routes := ReleaseWaiters(s.routes, true),
      negotiated := if s.child.Some? then s.negotiated + {s.child.value} else s.negotiated))
  }

  /** The catch handler for every error but a rejected hello. */
  function GiveUp(s: State): State {
    MaybeRecycle(s.(handshakeState := Unknown, handshake := NoHandshake, routes := ReleaseWaiters(s.routes, false)))
  }

  /** The catch handler for `backend_hello_rejected`. */
  function Block(s: State): State {
    MaybeRecycle(Terminate(s).(handshakeState := Blocked, handshake := NoHandshake))
  }

  function NextProbe(cfg: Config, s: State, stage: Stage): State {
    var (s1, started) := Probe(cfg, s, stage);
    if started then s1 else GiveUp(s1)
  }

  function ContinueHandshake(cfg: Config, s: State): State
    requires MicrotaskDue(s)
  {
    match s.handshake
    case Answered(Hello, Result(negotiated, multiplexed, _)) =>
      if negotiated then Succeed(s, if multiplexed then Ready else SingleFlight) else Block(s)
    case Answered(Hello, Failure(code)) =>
      (match code
       case UnknownCommand => NextProbe(cfg, s, LegacyVersion)
       case HelloRejected => Block(s)
       case OtherFailure => GiveUp(s))
    case Answered(LegacyVersion, Result(_, _, compatible)) => NextProbe(cfg, s, LegacyCapabilities(compatible))
    case Answered(LegacyCapabilities(versionOk), Result(_, _, compatible)) =>
      if versionOk && compatible then Succeed(s, Legacy) else Block(s)
    case Answered(_, Failure(_)) => Block(s)
    case Broken(rejected) => if rejected then Block(s) else GiveUp(s)
  }

  // ----- calls

  function Request(cfg: Config, s: State, id: RequestId, line: Line): State {
    if !IsFreeId(s, id, false) || !HasCapacity(cfg, s, false) then s
    else
      var s1 := s.(routes := Open(s.routes, Unary, id, line));
      var (s2, v) := EnsureHandshake(cfg, s1);
      if IsWaiting(s2.routes, id) then AfterEnsure(s2, v, id) else s2
  }

  function OpenStream(cfg: Config, s: State, id: RequestId, line: Line): State {
    if !IsFreeId(s, id, false) || !HasCapacity(cfg, s, false) then s
    else s.(routes := Open(s.routes, Stream, id, line))
  }

  function StreamHandshake(cfg: Config, s: State, id: RequestId): State
    requires IsWaiting(s.routes, id)
  {
    var (s1, v) := EnsureHandshake(cfg, s);
    if IsWaiting(s1.routes, id) then AfterEnsure(s1, v, id) else s1
  }

  /** A caller's continuation after the handshake promise settled. A request is promoted
      before it queues for the slot, a stream after. */
  function Resume(cfg: Config, s: State, id: RequestId): State
    requires IsWaiting(s.routes, id) && WaitingOf(s.routes, id).phase.Released?
  {
    var unary := id in s.routes.waitingRequests;
    if !WaitingOf(s.routes, id).phase.ok then RejectWaiting(s, id, false)
    else if unary && !CanPromote(cfg, s, id) then RejectWaiting(s, id, false)
    else if IsSingleFlight(s.handshakeState) then s.(routes := AcquireSlot(s.routes, id))
    else if (unary || CanPromote(cfg, s, id)) && CanIssue(s) then Issue(cfg, s, id, false)
    else RejectWaiting(s, id, false)
  }

  /** The promise of the slot chain's head resolves. */
  function Grant(cfg: Config, s: State): State
    requires s.routes.slots != []
  {
    if !SlotWanted(s.routes) then s.(routes := SkipSlot(s.routes))
    else
      var id := s.routes.calls[s.routes.slots[0]];
      if (id in s.routes.waitingRequests || CanPromote(cfg, s, id)) && CanIssue(s)
      then Issue(cfg, s, id, true)
      else RejectWaiting(s, id, true)
  }

  predicate HasStartedWrite(s: State, id: RequestId) {
    exists a :: a in ActiveWrites(s.writes) && a.id == id && a.started
  }

  /** `cancel`; `rejection` says that the caller's own reason carries the hello-rejected code. */
  function Cancel(cfg: Config, s: State, id: RequestId, rejection: bool): State {
    if IsWaiting(s.routes, id) then RejectWaiting(s, id, false)
    else if IsPending(s.routes, id) then
      var s1 := ClearPending(cfg, s, id, true, Broken(rejection));
      if HasStartedWrite(s, id) then Terminate(s1) else s1
    else s
  }

  function Close(s: State): State {
    Terminate(s.(closed := true))
  }

  /** `fatalOnTimeout` is set for control routes and for routes holding the slot. */
  function Deadline(cfg: Config, s: State, id: RequestId): State
    requires IsPending(s.routes, id)
  {
    var s1 := ClearPending(cfg, s, id, true, Broken(false));
    if id.Control? || PendingOf(s.routes, id).slot || HasStartedWrite(s, id) then Terminate(s1) else s1
  }

  // ----- writes

  predicate MayStart(s: State, a: Admission) {
    && (a.id.Control? || CanIssue(s))
    && s.child == Some(a.child)
    && IsPending(s.routes, a.id)
  }

  /** The handler of a failed write looks its route up again, by id. */
  function WriteRejected(cfg: Config, s: State, a: Admission, tombstone: bool): State {
    if (if a.kind == Unary then a.id in s.routes.pendingResponses else a.id in s.routes.pendingStreams)
    then ClearPending(cfg, s, a.id, tombstone, Broken(false))
    else s
  }

  /** The next link of a write chain runs: the line goes to stdin, or the write fails
      before it. Only the blocked transport's own error is not known to be unsent. */
  function BeginWrite(cfg: Config, s: State, retired: bool): State
    requires Chain(s.writes, retired) != []
  {
    var a := Chain(s.writes, retired)[0];
    if MayStart(s, a) then
      s.(writes := MarkStarted(s.writes, retired),
         callerWrites := if a.id.Caller? then s.callerWrites + {a.child} else s.callerWrites)
    else
      var unsent := a.id.Control? || s.closed || s.protocolQuarantined || s.handshakeState != Blocked;
      WriteRejected(cfg, s.(writes := Release(s.writes, retired)), a, !unsent)
  }

  /** The stdin callback: success, or an error that says nothing about what was sent. */
  function EndWrite(cfg: Config, s: State, retired: bool, ok: bool): State
    requires Chain(s.writes, retired) != []
  {
    var a := Chain(s.writes, retired)[0];
    var s1 := s.(writes := Release(s.writes, retired));
    if ok then s1 else WriteRejected(cfg, s1, a, true)
  }

  // ----- frames

  function Quarantine(cfg: Config, s: State, id: RequestId): State {
    if id in s.quarantinedRequestIds then s
    else if |s.quarantinedRequestIds| >= cfg.quarantineLimit then Terminate(s)
    else MaybeRecycle(s.(quarantinedRequestIds := s.quarantinedRequestIds + {id}, protocolQuarantined := true))
  }

  function Deliver(s: State, id: RequestId, serial: nat): State
    requires IsPending(s.routes, id) && s.child.Some?
  {
    var p := PendingOf(s.routes, id);
    s.(deliveries := s.deliveries + {Delivery(p.serial, p.child, serial, s.child.value)})
  }

  function HandleResponse(cfg: Config, s: State, id: RequestId, reply: Reply, serial: nat): State
    requires s.child.Some?
  {
    if id in s.routes.pendingResponses then
      var stage := if s.handshake.Probing? then s.handshake.stage else Hello;
      ClearPending(cfg, Deliver(s, id, serial), id, false, Answered(stage, reply))
    else if id in s.routes.pendingStreams then Terminate(s)
    else if id in s.tombstones then
      if s.tombstones[id].kind == Unary then s.(tombstones := s.tombstones - {id}) else Terminate(s)
    else Quarantine(cfg, s, id)
  }

  /** `accepted` is what the stream's own bounded queue answers to the push. */
  function HandleEvent(cfg: Config, s: State, id: RequestId, t: EventType, accepted: bool, serial: nat): State
    requires s.child.Some?
  {
    if id in s.routes.pendingStreams then
      if !accepted then ClearPending(cfg, s, id, true, Broken(false))
      else if IsTerminal(t) then ClearPending(cfg, Deliver(s, id, serial), id, false, Broken(false))
      else Deliver(s, id, serial)
    else if id in s.routes.pendingResponses then Terminate(s)
    else if id in s.tombstones then
      if s.tombstones[id].kind == Unary then Terminate(s)
      else if IsTerminal(t) then s.(tombstones := s.tombstones - {id})
      else s
    else Quarantine(cfg, s, id)
  }

  // ----- steps

  datatype Step =
    | RequestStep(id: RequestId, line: Line)
    | OpenStreamStep(id: RequestId, line: Line)
    | StreamHandshakeStep(id: RequestId)
    | ResumeStep(id: RequestId)
    | GrantStep
    | ContinueStep
    | CancelStep(id: RequestId, rejection: bool)
    | CloseStep
    | BeginWriteStep(retired: bool)
    | FinishRetiredStep
    // timers and I/O
    | DeadlineStep(id: RequestId)
    | EndWriteStep(retired: bool, ok: bool)
    | ResponseStep(id: RequestId, reply: Reply, serial: nat)
    | EventStep(id: RequestId, t: EventType, accepted: bool, serial: nat)
    | TerminateStep           // a malformed line, a framing error, an expired tombstone, or the child's exit
    | QuarantineTimerStep

  predicate IsIo(step: Step) {
    || step.DeadlineStep? || step.EndWriteStep? || step.ResponseStep? || step.EventStep?
    || step.TerminateStep? || step.QuarantineTimerStep?
  }

  predicate Enabled(s: State, step: Step) {
    && (IsIo(step) ==> !MicrotaskDue(s))
    && match step
       case RequestStep(_, _) => true
       case OpenStreamStep(_, _) => true
       case StreamHandshakeStep(id) => id in s.routes.waitingStreams && s.routes.waitingStreams[id].phase == Deferred
       case ResumeStep(id) => IsWaiting(s.routes, id) && WaitingOf(s.routes, id).phase.Released?
       case GrantStep => s.routes.slots != [] && !SlotHeld(s.routes)
       case ContinueStep => MicrotaskDue(s)
       case CancelStep(_, _) => true
       case CloseStep => true
       case BeginWriteStep(retired) => Chain(s.writes, retired) != [] && !Chain(s.writes, retired)[0].started
       case FinishRetiredStep => s.writes.retired == Some([])
       case DeadlineStep(id) => IsPending(s.routes, id)
       case EndWriteStep(retired, _) => Chain(s.writes, retired) != [] && Chain(s.writes, retired)[0].started
       case ResponseStep(_, _, _) => s.child.Some?
       case EventStep(_, _, _, _) => s.child.Some?
       case TerminateStep => s.child.Some?
       case QuarantineTimerStep => s.protocolQuarantined
  }

  function Next(cfg: Config, s: State, step: Step): State
    requires Enabled(s, step)
  {
    match step
    case RequestStep(id, line) => Request(cfg, s, id, line)
    case OpenStreamStep(id, line) => OpenStream(cfg, s, id, line)
    case StreamHandshakeStep(id) => StreamHandshake(cfg, s, id)
    case ResumeStep(id) => Resume(cfg, s, id)
    case GrantStep => Grant(cfg, s)
    case ContinueStep => ContinueHandshake(cfg, s)
    case CancelStep(id, rejection) => Cancel(cfg, s, id, rejection)
    case CloseStep => Close(s)
    case BeginWriteStep(retired) => BeginWrite(cfg, s, retired)
    case FinishRetiredStep => s.(writes := FinishRetired(s.writes))
    case DeadlineStep(id) => Deadline(cfg, s, id)
    case EndWriteStep(retired, ok) => EndWrite(cfg, s, retired, ok)
    case ResponseStep(id, reply, serial) => HandleResponse(cfg, s, id, reply, serial)
    case EventStep(id, t, accepted, serial) => HandleEvent(cfg, s, id, t, accepted, serial)
    case TerminateStep => Terminate(s)
    case QuarantineTimerStep => RecycleQuarantined(s)
  }
}
