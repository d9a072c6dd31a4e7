/**
 What only moves forward: outcomes are final, calls are numbered in the order they were
 admitted, and the single-flight slot is passed on in the order it was asked for.
*/
module Progress {
  import opened Ledger
  import opened Routes
  import opened Transport
  import opened TransportInvariant
  import opened Wire
  import opened WriteQueue

  /** The chain moved past its first `k` calls, all of which have settled. */
  predicate PassedOn(r: Routes, r': Routes, k: nat) {
    && k <= |r.slots| && r.slots[k..] <= r'.slots
    && forall i :: 0 <= i < k ==> r.slots[i] in r'.settled
  }

  ghost predicate Forward(r: Routes, r': Routes) {
    && r.settled <= r'.settled
    && r.calls <= r'.calls
    && exists k :: PassedOn(r, r', k)
  }

  lemma SameForward(r: Routes, r': Routes)
    requires r.settled <= r'.settled && r.calls <= r'.calls && r.slots <= r'.slots
    ensures Forward(r, r')
  {
    assert PassedOn(r, r', 0);
  }

  lemma HeadForward(r: Routes, r': Routes)
    requires r.settled <= r'.settled && r.calls <= r'.calls
    requires r.slots != [] && r'.slots == r.slots[1..] && r.slots[0] in r'.settled
    ensures Forward(r, r')
  {
    assert PassedOn(r, r', 1);
  }

  lemma PassedTwice(r: Routes, r1: Routes, r2: Routes, k: nat, j: nat)
    requires PassedOn(r, r1, k) && PassedOn(r1, r2, j) && r1.settled <= r2.settled
    ensures PassedOn(r, r2, if j <= |r.slots| - k then k + j else |r.slots|)
  {
    var n := |r.slots| - k;
    assert forall i :: k <= i < |r.slots| ==> r.slots[i] == r.slots[k..][i - k] == r1.slots[i - k];
    if j <= n {
      var rest := r.slots[k + j..];
      assert forall i :: 0 <= i < |rest| ==> rest[i] == r.slots[k + j + i] == r1.slots[j..][i] == r2.slots[i];
    }
  }

  lemma ForwardTwice(r: Routes, r1: Routes, r2: Routes)
    requires Forward(r, r1) && Forward(r1, r2)
    ensures Forward(r, r2)
  {
    var k: nat :| PassedOn(r, r1, k);
    var j: nat :| PassedOn(r1, r2, j);
    PassedTwice(r, r1, r2, k, j);
  }

  // ----- the operations on the tables

  lemma DropPendingForward(r: Routes, id: RequestId)
    requires IsPending(r, id)
    ensures Forward(r, DropPending(r, id))
  {
    if r.slots != [] && r.slots[0] == PendingOf(r, id).call && PendingOf(r, id).slot {
      HeadForward(r, DropPending(r, id));
    } else {
      SameForward(r, DropPending(r, id));
    }
  }

  lemma DropWaitingForward(r: Routes, id: RequestId, granted: bool)
    requires IsWaiting(r, id)
    ensures Forward(r, DropWaiting(r, id, granted))
  {
    if r.slots != [] && r.slots[0] == WaitingOf(r, id).call && granted {
      HeadForward(r, DropWaiting(r, id, granted));
    } else {
      SameForward(r, DropWaiting(r, id, granted));
    }
  }

  lemma FailAllForward(r: Routes)
    requires RoutesOk(r)
    ensures Forward(r, FailAll(r))
  {
    FailAllKeeps(r);
    if SlotHeld(r) {
      assert Holds(ViewOf(r), r.calls, r.slots[0]);
      hide RoutesOk, ViewOf;
      HeadForward(r, FailAll(r));
    } else {
      hide RoutesOk, ViewOf;
      SameForward(r, FailAll(r));
    }
  }

  lemma SkipSlotForward(r: Routes)
    requires RoutesOk(r) && r.slots != [] && !SlotHeld(r) && !SlotWanted(r)
    ensures Forward(r, SkipSlot(r))
  {
    HeadForward(r, SkipSlot(r));
  }

  // ----- the steps

  lemma TerminateForward(cfg: Config, s: State)
    requires StateOk(cfg, s)
    ensures Forward(s.routes, Terminate(s).routes)
  {
    FailAllForward(s.routes);
    hide Forward, StateOk, FailAll, Retire;
  }

  lemma MaybeRecycleForward(cfg: Config, s: State)
    requires StateOk(cfg, s)
    ensures Forward(s.routes, MaybeRecycle(s).routes) && Forward(s.routes, RecycleQuarantined(s).routes)
  {
    FailAllForward(s.routes);
    SameForward(s.routes, s.routes);
    hide Forward, StateOk, FailAll, Retire;
  }

  lemma ClearPendingForward(cfg: Config, s: State, id: RequestId, tombstone: bool, after: Handshake)
    requires ValidConfig(cfg) && StateOk(cfg, s) && IsPending(s.routes, id)
    requires after.Broken? || (after.Answered? && !tombstone)
    ensures Forward(s.routes, ClearPending(cfg, s, id, tombstone, after).routes)
  {
    hide Forward, StateOk, FailAll, Retire, DropPending, RoutesOk;
    var s1 := Detach(s, id, after);
    PendingChild(cfg, s, id);
    DetachKeeps(cfg, s, id, after);
    DropPendingForward(s.routes, id);
    TerminateForward(cfg, s1);
    ForwardTwice(s.routes, s1.routes, Terminate(s1).routes);
    ClearPendingCases(cfg, s, id, tombstone, after);
    ClearedRoutes(cfg, s, id, tombstone, after);
  }

  /** Clearing a route either leaves the tables as the removal left them, or fails all. */
  lemma ClearPendingCases(cfg: Config, s: State, id: RequestId, tombstone: bool, after: Handshake)
    requires IsPending(s.routes, id)
    requires s.child.Some?
    ensures var s' := ClearPending(cfg, s, id, tombstone, after);
      s'.routes == DropPending(s.routes, id) || s'.routes == FailAll(DropPending(s.routes, id))
  {
    hide DropPending, FailAll, Retire;
  }

  lemma ClearedRoutes(cfg: Config, s: State, id: RequestId, tombstone: bool, after: Handshake)
    requires IsPending(s.routes, id)
    ensures Detach(s, id, after).routes == DropPending(s.routes, id)
    ensures Terminate(Detach(s, id, after)).routes == FailAll(DropPending(s.routes, id))
  {
    hide DropPending, FailAll, Retire;
  }

  lemma PendingChild(cfg: Config, s: State, id: RequestId)
    requires StateOk(cfg, s) && IsPending(s.routes, id)
    ensures s.child.Some?
  {
    PendingFacts(s, id);
  }

  /** Calls that leave the slot chain alone, or add to its end. */
  lemma AddsForward(r: Routes, r': Routes)
    requires r'.settled == r.settled && r.calls <= r'.calls
    requires r'.slots == r.slots || exists c :: r'.slots == r.slots + [c]
    ensures Forward(r, r')
  {
    SameForward(r, r');
  }

  lemma SubmitForward(cfg: Config, s: State, id: RequestId, kind: Kind, line: Line, serial: nat)
    requires ValidConfig(cfg) && StateOk(cfg, s) && IsPending(s.routes, id)
    ensures Forward(s.routes, Submit(cfg, s, id, kind, line, serial).routes)
  {
    hide StateOk, ClearPending, Forward;
    SameForward(s.routes, s.routes);
    if !CanWrite(cfg, s, line) {
      ClearPendingForward(cfg, s, id, false, Broken(false));
    }
  }

  lemma LaunchedForward(s: State, id: RequestId, slot: bool)
    requires IsWaiting(s.routes, id) && s.child.Some?
    ensures Forward(s.routes, Launched(s, id, slot).routes) && IsPending(Launched(s, id, slot).routes, id)
  {
    AddsForward(s.routes, Launched(s, id, slot).routes);
  }

  lemma IssueForward(cfg: Config, s: State, id: RequestId, slot: bool)
    requires ValidConfig(cfg) && StateOk(cfg, s) && IsWaiting(s.routes, id) && CanIssue(s)
    requires IsWorking(s.handshakeState) && (slot <==> IsSingleFlight(s.handshakeState))
    requires if slot then SlotWanted(s.routes) && s.routes.calls[s.routes.slots[0]] == id
             else WaitingOf(s.routes, id).phase != AwaitingSlot
    ensures Forward(s.routes, Issue(cfg, s, id, slot).routes)
  {
    hide StateOk, Forward, Submit, ViewOf;
    LaunchedKeeps(cfg, s, id, slot);
    LaunchedForward(s, id, slot);
    hide Launch;
    var kind := if id in s.routes.waitingRequests then Unary else Stream;
    SubmitForward(cfg, Launched(s, id, slot), id, kind, WaitingOf(s.routes, id).line, s.serials);
    ForwardTwice(s.routes, Launched(s, id, slot).routes,
                 Submit(cfg, Launched(s, id, slot), id, kind, WaitingOf(s.routes, id).line, s.serials).routes);
  }

  lemma GrantForward(cfg: Config, s: State)
    requires ValidConfig(cfg) && StateOk(cfg, s) && Enabled(s, GrantStep)
    ensures Forward(s.routes, Grant(cfg, s).routes)
  {
    if !SlotWanted(s.routes) {
      SkipSlotForward(s.routes);
    } else {
      var id := s.routes.calls[s.routes.slots[0]];
      WaitingFacts(s, id);
      hide StateOk, Forward, Issue;
      if (id in s.routes.waitingRequests || CanPromote(cfg, s, id)) && CanIssue(s) {
        IssueForward(cfg, s, id, true);
      } else {
        DropWaitingForward(s.routes, id, true);
      }
    }
  }

  lemma ResumeForward(cfg: Config, s: State, id: RequestId)
    requires ValidConfig(cfg) && StateOk(cfg, s) && Enabled(s, ResumeStep(id))
    ensures Forward(s.routes, Resume(cfg, s, id).routes)
  {
    hide StateOk, Forward, Issue, DropWaiting, ViewOf, IsFreeId;
    ResumeFacts(cfg, s, id);
    DropWaitingForward(s.routes, id, false);
    if IsSingleFlight(s.handshakeState) {
      AddsForward(s.routes, AcquireSlot(s.routes, id));
    } else if CanIssue(s) && WaitingOf(s.routes, id).phase.ok {
      IssueForward(cfg, s, id, false);
    }
  }

  lemma ResumeFacts(cfg: Config, s: State, id: RequestId)
    requires StateOk(cfg, s) && Enabled(s, ResumeStep(id))
    ensures WaitingOf(s.routes, id).phase.ok ==> IsWorking(s.handshakeState)
  {
    WaitingFacts(s, id);
  }

  lemma ProbeForward(cfg: Config, s: State, stage: Stage)
    requires ValidConfig(cfg) && StateOk(cfg, s)
    requires s.handshakeState == Unknown && !s.handshake.Probing? && (s.child.Some? || s.closed)
    ensures Forward(s.routes, Probe(cfg, s, stage).0.routes)
  {
    hide StateOk, Forward, Submit, OpenControl;
    ProbeFits(cfg, s);
    SameForward(s.routes, s.routes);
    if !s.closed && !s.protocolQuarantined {
      ProbedKeeps(cfg, s, stage);
      ProbedForward(s, stage);
      var s1, line := Probed(s, stage), Line(if stage == Hello then cfg.helloBytes else cfg.probeBytes, true);
      SubmitForward(cfg, s1, ControlId(s), Unary, line, s.serials);
      ForwardTwice(s.routes, s1.routes, Submit(cfg, s1, ControlId(s), Unary, line, s.serials).routes);
    }
  }

  lemma ProbedForward(s: State, stage: Stage)
    requires s.child.Some?
    ensures Forward(s.routes, Probed(s, stage).routes) && IsPending(Probed(s, stage).routes, ControlId(s))
  {
    SameForward(s.routes, Probed(s, stage).routes);
  }

  /** A new child starts a new slot chain; nobody was queued in the old one. */
  lemma SpawnForward(s: State)
    requires LedgerOk(ViewOf(s.routes), s.routes.calls, s.routes.settled, s.routes.slots)
    requires LiveRoutesOk(s, ViewOf(s.routes)) && s.handshakeState == Unknown && s.handshake.NoHandshake?
    ensures Forward(s.routes, Spawn(s).routes)
  {
    forall i | 0 <= i < |s.routes.slots|
      ensures s.routes.slots[i] in s.routes.settled
    {
    }
    assert PassedOn(s.routes, Spawn(s).routes, |s.routes.slots|);
  }

  lemma EnsureHandshakeForward(cfg: Config, s: State)
    requires ValidConfig(cfg) && StateOk(cfg, s)
    ensures Forward(s.routes, EnsureHandshake(cfg, s).0.routes)
  {
    hide Forward, Probe;
    SameForward(s.routes, s.routes);
    if !s.closed && s.handshakeState == Unknown && s.handshake.NoHandshake? && !s.writes.recycleBlocked {
      if s.child.None? {
        SpawnStateKeeps(cfg, s);
        SpawnForward(s);
      }
      hide StateOk;
      var s0 := if s.child.None? then Spawn(s) else s;
      ProbeForward(cfg, s0, Hello);
      ForwardTwice(s.routes, s0.routes, Probe(cfg, s0, Hello).0.routes);
    }
  }

  lemma AfterEnsureForward(s: State, v: Verdict, id: RequestId)
    requires IsWaiting(s.routes, id)
    ensures Forward(s.routes, AfterEnsure(s, v, id).routes)
  {
    match v
    case Resolved => AddsForward(s.routes, SetPhase(s.routes, id, Released(true)));
    case Rejected => DropWaitingForward(s.routes, id, false);
    case Awaited => AddsForward(s.routes, SetPhase(s.routes, id, AwaitingHandshake));
  }

  lemma RequestForward(cfg: Config, s: State, id: RequestId, line: Line)
    requires ValidConfig(cfg) && StateOk(cfg, s)
    ensures Forward(s.routes, Request(cfg, s, id, line).routes)
  {
    hide Forward, EnsureHandshake, AfterEnsure, StateOk;
    SameForward(s.routes, s.routes);
    if IsFreeId(s, id, false) && HasCapacity(cfg, s, false) {
      OpenStateKeeps(cfg, s, Unary, id, line);
      var s1 := s.(routes := Open(s.routes, Unary, id, line));
      var (s2, v) := EnsureHandshake(cfg, s1);
      AddsForward(s.routes, s1.routes);
      EnsureHandshakeForward(cfg, s1);
      EnsureHandshakeKeeps(cfg, s1);
      AfterEnsureForward(s2, v, id);
      ForwardTwice(s.routes, s1.routes, s2.routes);
      ForwardTwice(s.routes, s2.routes, AfterEnsure(s2, v, id).routes);
    }
  }

  lemma StreamHandshakeForward(cfg: Config, s: State, id: RequestId)
    requires ValidConfig(cfg) && StateOk(cfg, s) && Enabled(s, StreamHandshakeStep(id))
    ensures Forward(s.routes, StreamHandshake(cfg, s, id).routes)
  {
    hide Forward, EnsureHandshake, AfterEnsure, StateOk;
    EnsureHandshakeForward(cfg, s);
    EnsureHandshakeKeeps(cfg, s);
    var (s1, v) := EnsureHandshake(cfg, s);
    AfterEnsureForward(s1, v, id);
    ForwardTwice(s.routes, s1.routes, AfterEnsure(s1, v, id).routes);
  }

  lemma GiveUpForward(cfg: Config, s: State)
    requires ValidConfig(cfg) && StateOk(cfg, s) && MicrotaskDue(s)
    ensures Forward(s.routes, GiveUp(s).routes)
  {
    var s1 := s.(handshakeState := Unknown, handshake := NoHandshake, routes := ReleaseWaiters(s.routes, false));
    ReleaseWaitersKeeps(s.routes, false);
    ReleasedLive(s, s1, ViewOf(s.routes), false);
    assert StateOk(cfg, s1);
    hide Forward, StateOk, MaybeRecycle;
    AddsForward(s.routes, s1.routes);
    MaybeRecycleForward(cfg, s1);
    ForwardTwice(s.routes, s1.routes, MaybeRecycle(s1).routes);
  }

  lemma SucceedForward(cfg: Config, s: State, h: HandshakeState)
    requires ValidConfig(cfg) && StateOk(cfg, s) && s.handshake.Answered? && IsWorking(h)
    ensures Forward(s.routes, Succeed(s, h).routes)
  {
    var s1 := s.(handshakeState := h, handshake := NoHandshake, routes := ReleaseWaiters(s.routes, true));
    ReleaseWaitersKeeps(s.routes, true);
    AddsForward(s.routes, s1.routes);
    FailAllForward(s1.routes);
    hide Forward, StateOk, FailAll, ReleaseWaiters;
    ForwardTwice(s.routes, s1.routes, FailAll(s1.routes));
    SucceedCases(s, h);
  }

  lemma SucceedCases(s: State, h: HandshakeState)
    ensures Succeed(s, h).routes == ReleaseWaiters(s.routes, true)
         || Succeed(s, h).routes == FailAll(ReleaseWaiters(s.routes, true))
  {
    hide FailAll, ReleaseWaiters, Retire;
  }

  lemma BlockForward(cfg: Config, s: State)
    requires ValidConfig(cfg) && StateOk(cfg, s) && MicrotaskDue(s)
    ensures Forward(s.routes, Block(s).routes)
  {
    QuietKeeps(cfg, s);
    var s0 := s.(handshake := NoHandshake);
    TerminateKeeps(cfg, s0);
    BlockedKeeps(cfg, Terminate(s0));
    hide Forward, StateOk, FailAll, Retire;
    TerminateForward(cfg, s);
  }

  lemma NextProbeForward(cfg: Config, s: State, stage: Stage)
    requires ValidConfig(cfg) && StateOk(cfg, s) && s.handshake.Answered?
    ensures Forward(s.routes, NextProbe(cfg, s, stage).routes)
  {
    ProbeKeeps(cfg, s, stage);
    ProbeSpares(cfg, s, stage);
    ProbeForward(cfg, s, stage);
    var (s1, started) := Probe(cfg, s, stage);
    hide Forward, StateOk, Probe, GiveUp;
    if !started {
      GiveUpForward(cfg, s1);
      ForwardTwice(s.routes, s1.routes, GiveUp(s1).routes);
    }
  }

  lemma ContinueForward(cfg: Config, s: State)
    requires ValidConfig(cfg) && StateOk(cfg, s) && MicrotaskDue(s)
    ensures Forward(s.routes, ContinueHandshake(cfg, s).routes)
  {
    hide StateOk, Forward, Succeed, GiveUp, Block, NextProbe;
    match s.handshake
    case Answered(stage, reply) =>
      SucceedForward(cfg, s, Ready);
      SucceedForward(cfg, s, SingleFlight);
      SucceedForward(cfg, s, Legacy);
      BlockForward(cfg, s);
      GiveUpForward(cfg, s);
      NextProbeForward(cfg, s, LegacyVersion);
      if reply.Result? {
        NextProbeForward(cfg, s, LegacyCapabilities(reply.compatible));
      }
    case Broken(rejected) =>
      BlockForward(cfg, s);
      GiveUpForward(cfg, s);
  }

  lemma ClearThenTerminateForward(cfg: Config, s: State, id: RequestId, after: Handshake)
    requires ValidConfig(cfg) && StateOk(cfg, s) && IsPending(s.routes, id) && after.Broken?
    ensures var s1 := ClearPending(cfg, s, id, true, after);
      Forward(s.routes, s1.routes) && Forward(s.routes, Terminate(s1).routes)
  {
    hide StateOk, Forward, ClearPending, Terminate;
    var s1 := ClearPending(cfg, s, id, true, after);
    ClearPendingForward(cfg, s, id, true, after);
    ClearPendingKeeps(cfg, s, id, true, after);
    TerminateForward(cfg, s1);
    ForwardTwice(s.routes, s1.routes, Terminate(s1).routes);
  }

  lemma WriteRejectedForward(cfg: Config, s: State, a: Admission, tombstone: bool)
    requires ValidConfig(cfg) && StateOk(cfg, s)
    ensures Forward(s.routes, WriteRejected(cfg, s, a, tombstone).routes)
  {
    hide StateOk, Forward, ClearPending;
    SameForward(s.routes, s.routes);
    if IsPending(s.routes, a.id) {
      ClearPendingForward(cfg, s, a.id, tombstone, Broken(false));
    }
  }

  lemma WriteStepForward(cfg: Config, s: State, retired: bool, ok: bool)
    requires ValidConfig(cfg) && StateOk(cfg, s) && Chain(s.writes, retired) != []
    ensures Forward(s.routes, BeginWrite(cfg, s, retired).routes)
    ensures Forward(s.routes, EndWrite(cfg, s, retired, ok).routes)
  {
    hide StateOk, Forward, WriteRejected, Release, MarkStarted, MayStart;
    ReleasedKeeps(cfg, s, retired);
    var a, s1 := Chain(s.writes, retired)[0], s.(writes := Release(s.writes, retired));
    SameForward(s.routes, s.routes);
    WriteRejectedForward(cfg, s1, a, true);
    WriteRejectedForward(cfg, s1, a, false);
  }

  lemma FrameForward(cfg: Config, s: State, id: RequestId, reply: Reply, t: EventType, accepted: bool, serial: nat)
    requires ValidConfig(cfg) && StateOk(cfg, s) && s.child.Some? && !MicrotaskDue(s)
    ensures Forward(s.routes, HandleResponse(cfg, s, id, reply, serial).routes)
    ensures Forward(s.routes, HandleEvent(cfg, s, id, t, accepted, serial).routes)
  {
    hide StateOk, Forward, ClearPending, Terminate, Deliver, Quarantine;
    SameForward(s.routes, s.routes);
    TerminateForward(cfg, s);
    QuarantineForward(cfg, s, id);
    if IsPending(s.routes, id) {
      var stage := if s.handshake.Probing? then s.handshake.stage else Hello;
      var s1 := Deliver(s, id, serial);
      DeliverKeeps(cfg, s, id, serial);
      DeliveredRoutes(s, id, serial);
      ClearPendingForward(cfg, s1, id, false, Answered(stage, reply));
      ClearPendingForward(cfg, s1, id, false, Broken(false));
      ClearPendingForward(cfg, s, id, true, Broken(false));
    }
  }

  lemma DeliveredRoutes(s: State, id: RequestId, serial: nat)
    requires IsPending(s.routes, id) && s.child.Some?
    ensures Deliver(s, id, serial).routes == s.routes
  {
  }

  lemma QuarantineForward(cfg: Config, s: State, id: RequestId)
    requires ValidConfig(cfg) && StateOk(cfg, s)
    ensures Forward(s.routes, Quarantine(cfg, s, id).routes)
  {
    FailAllForward(s.routes);
    SameForward(s.routes, s.routes);
    hide StateOk, Forward, FailAll, Retire;
  }

  lemma CloseForward(cfg: Config, s: State)
    requires ValidConfig(cfg) && StateOk(cfg, s)
    ensures Forward(s.routes, Close(s).routes)
  {
    FailAllForward(s.routes);
    hide StateOk, Forward, FailAll, Retire;
  }

  lemma CallForward(cfg: Config, s: State, step: Step)
    requires ValidConfig(cfg) && StateOk(cfg, s) && Enabled(s, step) && !IsIo(step)
    ensures Forward(s.routes, Next(cfg, s, step).routes)
  {
    hide StateOk, Forward, Request, StreamHandshake, Resume, Grant, ContinueHandshake, Close, BeginWrite;
    hide ClearPending, Terminate, FinishRetired, DropWaiting;
    SameForward(s.routes, s.routes);
    match step
    case RequestStep(id, line) => RequestForward(cfg, s, id, line);
    case OpenStreamStep(id, line) => AddsForward(s.routes, Open(s.routes, Stream, id, line));
    case StreamHandshakeStep(id) => StreamHandshakeForward(cfg, s, id);
    case ResumeStep(id) => ResumeForward(cfg, s, id);
    case GrantStep => GrantForward(cfg, s);
    case ContinueStep => ContinueForward(cfg, s);
    case CancelStep(id, rejection) =>
      if IsWaiting(s.routes, id) {
        DropWaitingForward(s.routes, id, false);
      } else if IsPending(s.routes, id) {
        ClearThenTerminateForward(cfg, s, id, Broken(rejection));
      }
    case CloseStep => CloseForward(cfg, s);
    case BeginWriteStep(retired) => WriteStepForward(cfg, s, retired, true);
    case FinishRetiredStep =>
  }

  /** Every step only adds outcomes and calls, and passes the slot on in order. */
  lemma NextForward(cfg: Config, s: State, step: Step)
    requires ValidConfig(cfg) && StateOk(cfg, s) && Enabled(s, step)
    ensures Forward(s.routes, Next(cfg, s, step).routes)
  {
    hide StateOk, Forward, EndWrite, ClearPending, HandleResponse, HandleEvent, Terminate, RecycleQuarantined;
    match step
    case DeadlineStep(id) => ClearThenTerminateForward(cfg, s, id, Broken(false));
    case EndWriteStep(retired, ok) => WriteStepForward(cfg, s, retired, ok);
    case ResponseStep(id, reply, serial) => FrameForward(cfg, s, id, reply, Item, true, serial);
    case EventStep(id, t, accepted, serial) => FrameForward(cfg, s, id, Failure(OtherFailure), t, accepted, serial);
    case TerminateStep => TerminateForward(cfg, s);
    case QuarantineTimerStep => MaybeRecycleForward(cfg, s);
    case _ => CallForward(cfg, s, step);
  }

  lemma {:induction false} RunForward(cfg: Config, s: State, steps: seq<Step>)
    requires ValidConfig(cfg) && StateOk(cfg, s)
    ensures Run(cfg, s, steps).Some? ==> Forward(s.routes, Run(cfg, s, steps).value.routes)
    decreases |steps|
  {
    SameForward(s.routes, s.routes);
    hide StateOk, Next, Enabled, Forward;
    if steps != [] && Enabled(s, steps[0]) {
      var s1 := Next(cfg, s, steps[0]);
      NextKeeps(cfg, s, steps[0]);
      NextForward(cfg, s, steps[0]);
      RunForward(cfg, s1, steps[1..]);
      if Run(cfg, s1, steps[1..]).Some? {
        ForwardTwice(s.routes, s1.routes, Run(cfg, s1, steps[1..]).value.routes);
      }
    }
  }
}
