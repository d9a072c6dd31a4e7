/**
 Nobody is forgotten: in every reachable state each call that has no outcome yet is
 waiting for something that can still happen.
*/
module Liveness {
  import opened Ledger
  import opened Routes
  import opened Transport
  import opened TransportInvariant
  import opened TransportTheorems
  import opened Wire
  import opened WriteQueue

  /** The call waits for the handshake promise to settle. */
  predicate Expects(r: Routes, id: RequestId) {
    IsWaiting(r, id) && WaitingOf(r, id).phase == AwaitingHandshake
  }

  /** Whoever waits for a handshake has one to wait for. */
  ghost predicate NoOrphans(s: State) {
    s.handshake.NoHandshake? ==> forall id :: !Expects(s.routes, id)
  }

  /** No one starts to wait, and the handshake does not vanish while anyone waits. */
  ghost predicate Eases(s: State, s': State) {
    && (forall id :: Expects(s'.routes, id) ==> Expects(s.routes, id))
    && (s'.handshake.NoHandshake? ==> s.handshake.NoHandshake?)
  }

  lemma EasedKeeps(s: State, s': State)
    requires NoOrphans(s) && Eases(s, s')
    ensures NoOrphans(s')
  {
    hide Expects;
  }

  lemma EasedTwice(s: State, s1: State, s2: State)
    requires Eases(s, s1) && Eases(s1, s2)
    ensures Eases(s, s2)
  {
    hide Expects;
  }

  lemma TerminateEases(s: State)
    ensures Eases(s, Terminate(s)) && forall id :: !Expects(Terminate(s).routes, id)
  {
    hide Retire, ViewOf, SlotHeld;
  }

  lemma RecycleEases(s: State)
    ensures Eases(s, RecycleQuarantined(s)) && Eases(s, MaybeRecycle(s))
  {
    hide Terminate;
    TerminateEases(s.(protocolQuarantined := false));
  }

  lemma TombstoneEases(cfg: Config, s: State, id: RequestId, t: Tombstone)
    ensures Eases(s, AddTombstone(cfg, s, id, t))
  {
    hide Terminate;
    TerminateEases(s);
  }

  lemma DetachEases(s: State, id: RequestId, after: Handshake)
    requires IsPending(s.routes, id) && !after.NoHandshake?
    ensures Eases(s, Detach(s, id, after))
  {
  }

  lemma ClearEases(cfg: Config, s: State, id: RequestId, tombstone: bool, after: Handshake)
    requires IsPending(s.routes, id) && !after.NoHandshake?
    ensures Eases(s, ClearPending(cfg, s, id, tombstone, after))
  {
    hide AddTombstone, MaybeRecycle, DropPending, Eases;
    var t := Tombstone(if id in s.routes.pendingResponses then Unary else Stream, PendingOf(s.routes, id).serial);
    var s1 := Detach(s, id, after);
    var s2 := if tombstone then AddTombstone(cfg, s1, id, t) else s1;
    DetachEases(s, id, after);
    TombstoneEases(cfg, s1, id, t);
    RecycleEases(s2);
    if tombstone {
      EasedTwice(s, s1, s2);
    }
    EasedTwice(s, s2, MaybeRecycle(s2));
  }

  lemma SubmitEases(cfg: Config, s: State, id: RequestId, kind: Kind, line: Line, serial: nat)
    requires IsPending(s.routes, id)
    ensures Eases(s, Submit(cfg, s, id, kind, line, serial))
  {
    hide ClearPending, CanWrite;
    ClearEases(cfg, s, id, false, Broken(false));
  }

  predicate WaitsOnce(r: Routes, id: RequestId) {
    IsWaiting(r, id) && !(id in r.waitingRequests && id in r.waitingStreams)
  }

  lemma LaunchEases(s: State, id: RequestId, slot: bool)
    requires WaitsOnce(s.routes, id) && s.child.Some?
    ensures Eases(s, Launched(s, id, slot)) && IsPending(Launched(s, id, slot).routes, id)
  {
  }

  lemma IssueEases(cfg: Config, s: State, id: RequestId, slot: bool)
    requires WaitsOnce(s.routes, id) && s.child.Some?
    ensures Eases(s, Issue(cfg, s, id, slot))
  {
    hide Submit, Eases;
    var kind := if id in s.routes.waitingRequests then Unary else Stream;
    var s1 := Launched(s, id, slot);
    LaunchEases(s, id, slot);
    SubmitEases(cfg, s1, id, kind, WaitingOf(s.routes, id).line, s.serials);
    EasedTwice(s, s1, Submit(cfg, s1, id, kind, WaitingOf(s.routes, id).line, s.serials));
  }

  lemma RejectEases(s: State, id: RequestId, granted: bool)
    requires IsWaiting(s.routes, id)
    ensures Eases(s, RejectWaiting(s, id, granted))
  {
  }

  lemma QueueEases(s: State, id: RequestId)
    requires IsWaiting(s.routes, id)
    ensures Eases(s, s.(routes := AcquireSlot(s.routes, id)))
  {
  }

  lemma ResumeEases(cfg: Config, s: State, id: RequestId)
    requires WaitsOnce(s.routes, id) && WaitingOf(s.routes, id).phase.Released?
    ensures Eases(s, Resume(cfg, s, id))
  {
    hide Issue, RejectWaiting, CanPromote, AcquireSlot, Eases;
    RejectEases(s, id, false);
    QueueEases(s, id);
    if s.child.Some? {
      IssueEases(cfg, s, id, false);
    }
  }

  lemma WantedEases(cfg: Config, s: State, id: RequestId)
    requires WaitsOnce(s.routes, id)
    ensures s.child.Some? ==> Eases(s, Issue(cfg, s, id, true))
    ensures Eases(s, RejectWaiting(s, id, true))
  {
    hide Issue, Eases, RejectWaiting;
    RejectEases(s, id, true);
    if s.child.Some? {
      IssueEases(cfg, s, id, true);
    }
  }

  lemma WantedWaits(cfg: Config, s: State)
    requires StateOk(cfg, s) && SlotWanted(s.routes)
    ensures WaitsOnce(s.routes, s.routes.calls[s.routes.slots[0]])
  {
    var id := s.routes.calls[s.routes.slots[0]];
    WaitingInView(s, id);
    hide SlotWanted;
    ResumingWaitsOnce(cfg, s, id);
  }

  lemma GrantEases(cfg: Config, s: State)
    requires StateOk(cfg, s) && s.routes.slots != []
    ensures Eases(s, Grant(cfg, s))
  {
    if SlotWanted(s.routes) {
      WantedWaits(cfg, s);
      WantedEases(cfg, s, s.routes.calls[s.routes.slots[0]]);
      hide StateOk, ViewOf, Issue, RejectWaiting, CanPromote, CanIssue, Eases;
    } else {
      hide StateOk, ViewOf;
      SkipEases(s);
    }
  }

  lemma SkipEases(s: State)
    requires s.routes.slots != []
    ensures Eases(s, s.(routes := SkipSlot(s.routes)))
  {
  }

  lemma WaitingInView(s: State, id: RequestId)
    requires id in ViewOf(s.routes) && ViewOf(s.routes)[id].Waits?
    ensures IsWaiting(s.routes, id)
  {
  }

  // ----- the handshake

  lemma SpawnEases(s: State)
    ensures Eases(s, Spawn(s))
  {
  }

  /** A probe that starts is there to be waited for, whatever becomes of its line. */
  lemma ProbeEases(cfg: Config, s: State, stage: Stage)
    requires s.handshake.NoHandshake? || MicrotaskDue(s)
    ensures var (s1, started) := Probe(cfg, s, stage);
      && (forall id :: Expects(s1.routes, id) ==> Expects(s.routes, id))
      && (started ==> !s1.handshake.NoHandshake?) && (!started ==> s1.handshake == s.handshake)
  {
    hide IsFreeId, HasCapacity, Submit;
    var id := ControlId(s);
    var s1 := s.(handshakeGeneration := s.handshakeGeneration + 1);
    if IsFreeId(s1, id, true) && HasCapacity(cfg, s1, true) {
      var child := if s.child.Some? then s.child.value else 0;
      var s2 := s1.(routes := OpenControl(s.routes, id, s.serials, child),
                    serials := s.serials + 1,
                    handshake := Probing(id, stage));
      SubmitEases(cfg, s2, id, Unary, Line(if stage == Hello then cfg.helloBytes else cfg.probeBytes, true), s.serials);
    }
  }

  lemma EnsureEases(cfg: Config, s: State)
    ensures var (s1, v) := EnsureHandshake(cfg, s);
      && (forall id :: Expects(s1.routes, id) ==> Expects(s.routes, id))
      && (s1.handshake.NoHandshake? ==> s.handshake.NoHandshake?)
      && (v == Awaited ==> !s1.handshake.NoHandshake?)
  {
    hide Probe, Spawn, Expects;
    SpawnEases(s);
    SpawnHandshake(s);
    if s.handshake.NoHandshake? {
      ProbeEases(cfg, if s.child.None? then Spawn(s) else s, Hello);
    }
  }

  lemma SpawnHandshake(s: State)
    ensures Spawn(s).handshake == s.handshake
  {
  }

  /** The caller that asked for the handshake: it waits only if there is one. */
  lemma AfterEnsureEases(s: State, v: Verdict, id: RequestId)
    requires WaitsOnce(s.routes, id)
    ensures var s' := AfterEnsure(s, v, id);
      && s'.handshake == s.handshake
      && (forall x :: x != id && Expects(s'.routes, x) ==> Expects(s.routes, x))
      && (Expects(s'.routes, id) ==> v == Awaited)
  {
  }

  lemma AskKeeps(cfg: Config, s: State, s0: State, id: RequestId)
    requires NoOrphans(s0) && s.handshake == s0.handshake
    requires forall x :: x != id && Expects(s.routes, x) ==> Expects(s0.routes, x)
    requires ValidConfig(cfg) && StateOk(cfg, s) && IsWaiting(s.routes, id)
    ensures var (s1, v) := EnsureHandshake(cfg, s);
      IsWaiting(s1.routes, id) ==> NoOrphans(AfterEnsure(s1, v, id))
    ensures NoOrphans(EnsureHandshake(cfg, s).0) || IsWaiting(EnsureHandshake(cfg, s).0.routes, id)
  {
    hide EnsureHandshake, AfterEnsure, StateOk, Expects, IsWaiting;
    EnsureEases(cfg, s);
    EnsureHandshakeKeeps(cfg, s);
    var (s1, v) := EnsureHandshake(cfg, s);
    NotWaiting(s1.routes, id);
    if IsWaiting(s1.routes, id) {
      ResumingWaitsOnce(cfg, s1, id);
      AfterEnsureEases(s1, v, id);
    }
  }

  lemma NotWaiting(r: Routes, id: RequestId)
    ensures Expects(r, id) ==> IsWaiting(r, id)
  {
  }

  lemma RequestKeepsNoOrphans(cfg: Config, s: State, id: RequestId, line: Line)
    requires ValidConfig(cfg) && StateOk(cfg, s) && NoOrphans(s)
    ensures NoOrphans(Request(cfg, s, id, line))
  {
    if IsFreeId(s, id, false) && HasCapacity(cfg, s, false) {
      var s1 := s.(routes := Open(s.routes, Unary, id, line));
      OpenStateKeeps(cfg, s, Unary, id, line);
      OpenWaits(s.routes, Unary, id, line);
      hide StateOk, IsFreeId, HasCapacity, EnsureHandshake, AfterEnsure, Expects, Open, NoOrphans;
      AskKeeps(cfg, s1, s, id);
    }
  }

  lemma OpenWaits(r: Routes, kind: Kind, id: RequestId, line: Line)
    ensures IsWaiting(Open(r, kind, id, line), id)
    ensures forall x :: x != id && Expects(Open(r, kind, id, line), x) ==> Expects(r, x)
    ensures kind == Stream && id !in r.waitingRequests ==> !Expects(Open(r, kind, id, line), id)
  {
  }

  lemma OpenStreamKeepsNoOrphans(cfg: Config, s: State, id: RequestId, line: Line)
    requires StateOk(cfg, s) && NoOrphans(s)
    ensures NoOrphans(OpenStream(cfg, s, id, line))
  {
    hide StateOk, HasCapacity, Open, Expects, IsFreeId, IdOk;
    if IsFreeId(s, id, false) && HasCapacity(cfg, s, false) {
      OpenWaits(s.routes, Stream, id, line);
      PartitionedAt(cfg, s, id);
      FreeIdWaitsNowhere(s, id);
    }
  }

  lemma PartitionedAt(cfg: Config, s: State, id: RequestId)
    requires StateOk(cfg, s)
    ensures IdOk(s.routes, id)
  {
  }

  lemma FreeIdWaitsNowhere(s: State, id: RequestId)
    requires IdOk(s.routes, id) && IsFreeId(s, id, false)
    ensures !IsWaiting(s.routes, id)
  {
  }

  lemma StreamHandshakeKeepsNoOrphans(cfg: Config, s: State, id: RequestId)
    requires ValidConfig(cfg) && StateOk(cfg, s) && NoOrphans(s) && IsWaiting(s.routes, id)
    ensures NoOrphans(StreamHandshake(cfg, s, id))
  {
    hide StateOk, EnsureHandshake, AfterEnsure, Expects, NoOrphans;
    AskKeeps(cfg, s, s, id);
  }

  lemma NobodyExpects(r: Routes, ok: bool)
    ensures forall id :: !Expects(ReleaseWaiters(r, ok), id)
  {
  }

  lemma FreedKeeps(s: State)
    requires forall id :: !Expects(s.routes, id)
    ensures NoOrphans(MaybeRecycle(s))
  {
    hide Expects;
    RecycleEases(s);
  }

  lemma SucceedKeepsNoOrphans(s: State, h: HandshakeState)
    ensures NoOrphans(Succeed(s, h))
  {
    NobodyExpects(s.routes, true);
    hide Expects, MaybeRecycle, ReleaseWaiters, NoOrphans;
    FreedKeeps(s.(
      handshakeState := h,
      handshake := NoHandshake,
      routes := ReleaseWaiters(s.routes, true),
      negotiated := if s.child.Some? then s.negotiated + {s.child.value} else s.negotiated));
  }

  lemma GiveUpKeepsNoOrphans(s: State)
    ensures NoOrphans(GiveUp(s))
  {
    NobodyExpects(s.routes, false);
    hide Expects, MaybeRecycle, ReleaseWaiters, NoOrphans;
    FreedKeeps(s.(handshakeState := Unknown, handshake := NoHandshake, routes := ReleaseWaiters(s.routes, false)));
  }

  lemma BlockKeepsNoOrphans(s: State)
    ensures NoOrphans(Block(s))
  {
    TerminateEases(s);
    hide Expects, MaybeRecycle, Terminate, NoOrphans;
    FreedKeeps(Terminate(s).(handshakeState := Blocked, handshake := NoHandshake));
  }

  lemma NextProbeKeepsNoOrphans(cfg: Config, s: State, stage: Stage)
    requires MicrotaskDue(s)
    ensures NoOrphans(NextProbe(cfg, s, stage))
  {
    hide Probe, Expects, GiveUp;
    ProbeEases(cfg, s, stage);
    GiveUpKeepsNoOrphans(Probe(cfg, s, stage).0);
  }

  lemma ContinueKeepsNoOrphans(cfg: Config, s: State)
    requires MicrotaskDue(s)
    ensures NoOrphans(ContinueHandshake(cfg, s))
  {
    hide NoOrphans, Succeed, GiveUp, Block, NextProbe;
    GiveUpKeepsNoOrphans(s);
    BlockKeepsNoOrphans(s);
    if s.handshake.Answered? {
      SucceedKeepsNoOrphans(s, Ready);
      SucceedKeepsNoOrphans(s, SingleFlight);
      SucceedKeepsNoOrphans(s, Legacy);
      NextProbeKeepsNoOrphans(cfg, s, LegacyVersion);
      NextProbeKeepsNoOrphans(cfg, s, LegacyCapabilities(true));
      NextProbeKeepsNoOrphans(cfg, s, LegacyCapabilities(false));
    }
  }

  // ----- calls, timers, writes and frames

  lemma GiveUpOnEases(cfg: Config, s: State, id: RequestId, after: Handshake)
    requires IsPending(s.routes, id) && after.Broken?
    ensures var s1 := ClearPending(cfg, s, id, true, after); Eases(s, s1) && Eases(s, Terminate(s1))
  {
    hide ClearPending, Terminate, Eases;
    var s1 := ClearPending(cfg, s, id, true, after);
    ClearEases(cfg, s, id, true, after);
    TerminateEases(s1);
    EasedTwice(s, s1, Terminate(s1));
  }

  lemma CancelEases(cfg: Config, s: State, id: RequestId, rejection: bool)
    ensures Eases(s, Cancel(cfg, s, id, rejection))
  {
    hide ClearPending, Terminate, RejectWaiting, HasStartedWrite;
    if IsWaiting(s.routes, id) {
      RejectEases(s, id, false);
    } else if IsPending(s.routes, id) {
      GiveUpOnEases(cfg, s, id, Broken(rejection));
    }
  }

  lemma DeadlineEases(cfg: Config, s: State, id: RequestId)
    requires IsPending(s.routes, id)
    ensures Eases(s, Deadline(cfg, s, id))
  {
    hide ClearPending, Terminate, HasStartedWrite;
    GiveUpOnEases(cfg, s, id, Broken(false));
  }

  lemma WriteRejectedEases(cfg: Config, s: State, s1: State, a: Admission, tombstone: bool)
    requires s1.routes == s.routes && s1.handshake == s.handshake
    ensures Eases(s, WriteRejected(cfg, s1, a, tombstone))
  {
    hide ClearPending;
    if IsPending(s1.routes, a.id) {
      ClearEases(cfg, s1, a.id, tombstone, Broken(false));
    }
  }

  lemma WriteEases(cfg: Config, s: State, retired: bool, ok: bool)
    requires Chain(s.writes, retired) != []
    ensures Eases(s, BeginWrite(cfg, s, retired)) && Eases(s, EndWrite(cfg, s, retired, ok))
  {
    hide WriteRejected, Release, MarkStarted, MayStart;
    var a := Chain(s.writes, retired)[0];
    var s1 := s.(writes := Release(s.writes, retired));
    var unsent := a.id.Control? || s.closed || s.protocolQuarantined || s.handshakeState != Blocked;
    WriteRejectedEases(cfg, s, s1, a, !unsent);
    WriteRejectedEases(cfg, s, s1, a, true);
  }

  lemma QuarantineEases(cfg: Config, s: State, id: RequestId)
    ensures Eases(s, Quarantine(cfg, s, id))
  {
    hide Terminate, MaybeRecycle;
    TerminateEases(s);
    RecycleEases(s.(quarantinedRequestIds := s.quarantinedRequestIds + {id}, protocolQuarantined := true));
  }

  lemma DeliverEases(cfg: Config, s: State, id: RequestId, serial: nat, after: Handshake)
    requires IsPending(s.routes, id) && s.child.Some? && !after.NoHandshake?
    ensures Eases(s, Deliver(s, id, serial)) && Eases(s, ClearPending(cfg, Deliver(s, id, serial), id, false, after))
  {
    hide ClearPending;
    ClearEases(cfg, Deliver(s, id, serial), id, false, after);
  }

  lemma ResponseEases(cfg: Config, s: State, id: RequestId, reply: Reply, serial: nat)
    requires s.child.Some?
    ensures Eases(s, HandleResponse(cfg, s, id, reply, serial))
  {
    hide ClearPending, Terminate, Quarantine, Deliver;
    TerminateEases(s);
    QuarantineEases(cfg, s, id);
    if id in s.routes.pendingResponses {
      var stage := if s.handshake.Probing? then s.handshake.stage else Hello;
      DeliverEases(cfg, s, id, serial, Answered(stage, reply));
    }
  }

  lemma EventEases(cfg: Config, s: State, id: RequestId, t: EventType, accepted: bool, serial: nat)
    requires s.child.Some?
    ensures Eases(s, HandleEvent(cfg, s, id, t, accepted, serial))
  {
    hide ClearPending, Terminate, Quarantine, Deliver;
    TerminateEases(s);
    QuarantineEases(cfg, s, id);
    if id in s.routes.pendingStreams {
      DeliverEases(cfg, s, id, serial, Broken(false));
      ClearEases(cfg, s, id, true, Broken(false));
    }
  }

  lemma CloseEases(s: State)
    ensures Eases(s, Close(s))
  {
    hide Terminate;
    TerminateEases(s.(closed := true));
  }

  // ----- every step, every run

  predicate IsAsking(step: Step) {
    step.RequestStep? || step.OpenStreamStep? || step.StreamHandshakeStep? || step.ContinueStep?
  }

  lemma OtherStepsEase(cfg: Config, s: State, step: Step)
    requires StateOk(cfg, s) && Enabled(s, step) && !IsAsking(step) && !IsIo(step)
    ensures Eases(s, Next(cfg, s, step))
  {
    hide StateOk, Resume, Grant, Cancel, Close, BeginWrite, FinishRetired, Eases;
    match step
    case ResumeStep(id) =>
      ResumingWaitsOnce(cfg, s, id);
      ResumeEases(cfg, s, id);
    case GrantStep => GrantEases(cfg, s);
    case CancelStep(id, rejection) => CancelEases(cfg, s, id, rejection);
    case CloseStep => CloseEases(s);
    case BeginWriteStep(retired) => WriteEases(cfg, s, retired, true);
    case FinishRetiredStep => SameEases(s, Next(cfg, s, step));
  }

  lemma SameEases(s: State, s': State)
    requires s'.routes == s.routes && s'.handshake == s.handshake
    ensures Eases(s, s')
  {
  }

  lemma ResumingWaitsOnce(cfg: Config, s: State, id: RequestId)
    requires StateOk(cfg, s) && IsWaiting(s.routes, id)
    ensures WaitsOnce(s.routes, id)
  {
    assert IdOk(s.routes, id);
  }

  lemma IoStepsEase(cfg: Config, s: State, step: Step)
    requires Enabled(s, step) && IsIo(step)
    ensures Eases(s, Next(cfg, s, step))
  {
    hide Deadline, EndWrite, HandleResponse, HandleEvent, Terminate, RecycleQuarantined, Eases;
    match step
    case DeadlineStep(id) => DeadlineEases(cfg, s, id);
    case EndWriteStep(retired, ok) => WriteEases(cfg, s, retired, ok);
    case ResponseStep(id, reply, serial) => ResponseEases(cfg, s, id, reply, serial);
    case EventStep(id, t, accepted, serial) => EventEases(cfg, s, id, t, accepted, serial);
    case TerminateStep => TerminateEases(s);
    case QuarantineTimerStep => RecycleEases(s);
  }

  lemma NextKeepsNoOrphans(cfg: Config, s: State, step: Step)
    requires ValidConfig(cfg) && StateOk(cfg, s) && NoOrphans(s) && Enabled(s, step)
    ensures NoOrphans(Next(cfg, s, step))
  {
    hide StateOk, NoOrphans, Eases, Request, OpenStream, StreamHandshake, ContinueHandshake;
    if IsIo(step) {
      IoStepsEase(cfg, s, step);
      EasedKeeps(s, Next(cfg, s, step));
    } else if !IsAsking(step) {
      OtherStepsEase(cfg, s, step);
      EasedKeeps(s, Next(cfg, s, step));
    } else {
      match step
      case RequestStep(id, line) => RequestKeepsNoOrphans(cfg, s, id, line);
      case OpenStreamStep(id, line) => OpenStreamKeepsNoOrphans(cfg, s, id, line);
      case StreamHandshakeStep(id) => StreamHandshakeKeepsNoOrphans(cfg, s, id);
      case ContinueStep => ContinueKeepsNoOrphans(cfg, s);
    }
  }

  lemma {:induction false} RunKeepsNoOrphans(cfg: Config, s: State, steps: seq<Step>)
    requires ValidConfig(cfg) && StateOk(cfg, s) && NoOrphans(s)
    ensures Run(cfg, s, steps).Some? ==> NoOrphans(Run(cfg, s, steps).value)
    decreases |steps|
  {
    hide StateOk, Next, Enabled, NoOrphans;
    if steps != [] && Enabled(s, steps[0]) {
      NextKeeps(cfg, s, steps[0]);
      NextKeepsNoOrphans(cfg, s, steps[0]);
      RunKeepsNoOrphans(cfg, Next(cfg, s, steps[0]), steps[1..]);
    }
  }

  // ----- the claim

  /** The one step that a call without an outcome is waiting for, by its phase: its own
      deadline once it is pending; its own microtask; the probe's deadline or the
      handshake's continuation; the slot holder's deadline or the next grant. No frame,
      no `close` and no exit of the child is among them. */
  function ServingStep(s: State, id: RequestId): Step
    requires IsLive(s.routes, id)
  {
    var r := s.routes;
    if IsPending(r, id) then DeadlineStep(id)
    else
      match WaitingOf(r, id).phase
      case Deferred => StreamHandshakeStep(id)
      case AwaitingHandshake => if s.handshake.Probing? then DeadlineStep(s.handshake.id) else ContinueStep
      case Released(_) => ResumeStep(id)
      case AwaitingSlot => if SlotHeld(r) then DeadlineStep(r.calls[r.slots[0]]) else GrantStep
  }

  /** No timer of a pending route has to wait for a continuation. */
  lemma PendingCanExpire(cfg: Config, s: State, id: RequestId)
    requires StateOk(cfg, s) && IsPending(s.routes, id)
    ensures Enabled(s, DeadlineStep(id))
  {
    hide StateOk;
    PendingIsQuiet(cfg, s, id);
  }

  lemma PendingIsQuiet(cfg: Config, s: State, id: RequestId)
    requires StateOk(cfg, s) && IsPending(s.routes, id)
    ensures !MicrotaskDue(s)
  {
    PendingMeansQuiet(s, id);
  }

  lemma HeadCanExpire(cfg: Config, s: State)
    requires StateOk(cfg, s) && SlotHeld(s.routes)
    ensures s.routes.slots != [] && s.routes.slots[0] < |s.routes.calls|
    ensures Enabled(s, DeadlineStep(s.routes.calls[s.routes.slots[0]]))
    ensures var x := s.routes.calls[s.routes.slots[0]];
      IsPending(s.routes, x) && PendingOf(s.routes, x).slot
  {
    var x := s.routes.calls[s.routes.slots[0]];
    PendingInView(s, x);
    hide StateOk, SlotHeld;
    PendingCanExpire(cfg, s, x);
  }

  lemma PendingInView(s: State, id: RequestId)
    requires id in ViewOf(s.routes) && ViewOf(s.routes)[id].Pends?
    ensures IsPending(s.routes, id) && PendingOf(s.routes, id).slot == ViewOf(s.routes)[id].slot
  {
  }

  lemma QueuedIsInChain(cfg: Config, s: State, id: RequestId)
    requires StateOk(cfg, s) && IsWaiting(s.routes, id) && WaitingOf(s.routes, id).phase == AwaitingSlot
    ensures s.routes.slots != []
  {
    WaitingFacts(s, id);
  }

  lemma DeferredIsStream(cfg: Config, s: State, id: RequestId)
    requires StateOk(cfg, s) && IsWaiting(s.routes, id) && WaitingOf(s.routes, id).phase == Deferred
    ensures id in s.routes.waitingStreams && s.routes.waitingStreams[id].phase == Deferred
  {
    assert IdOk(s.routes, id);
  }

  lemma ProbeIsPending(cfg: Config, s: State)
    requires StateOk(cfg, s) && s.handshake.Probing?
    ensures IsPending(s.routes, s.handshake.id) && s.handshake.id.Control?
  {
    var id := s.handshake.id;
    ViewFits(s.routes, id);
    assert LiveOk(s, id, ViewOf(s.routes)[id]);
  }

  lemma NotBoth(cfg: Config, s: State, id: RequestId)
    requires StateOk(cfg, s) && IsWaiting(s.routes, id)
    ensures !IsPending(s.routes, id)
  {
    assert IdOk(s.routes, id);
  }

  lemma ServingIsEnabled(cfg: Config, s: State, id: RequestId)
    requires StateOk(cfg, s) && NoOrphans(s) && IsLive(s.routes, id)
    ensures Enabled(s, ServingStep(s, id))
  {
    hide StateOk, SlotHeld;
    if IsPending(s.routes, id) {
      PendingCanExpire(cfg, s, id);
    } else {
      match WaitingOf(s.routes, id).phase
      case Deferred => DeferredIsStream(cfg, s, id);
      case Released(_) =>
      case AwaitingHandshake =>
        assert Expects(s.routes, id);
        if s.handshake.Probing? {
          ProbeIsPending(cfg, s);
          PendingCanExpire(cfg, s, s.handshake.id);
        }
      case AwaitingSlot =>
        QueuedIsInChain(cfg, s, id);
        if SlotHeld(s.routes) {
          HeadCanExpire(cfg, s);
        }
    }
  }

  /** No call is ever stuck: in every reachable state, as long as it has no outcome, the
      step that serves it is enabled, without waiting for the backend. */
  lemma NobodyIsStuck(cfg: Config, steps: seq<Step>, s: State, id: RequestId)
    requires Reaches(cfg, steps, s) && IsLive(s.routes, id)
    ensures Enabled(s, ServingStep(s, id))
  {
    hide StateOk, Run, Enabled, ServingStep;
    ReachableOk(cfg, steps, s);
    InitialOk(cfg);
    RunKeepsNoOrphans(cfg, INITIAL, steps);
    ServingIsEnabled(cfg, s, id);
  }
}
