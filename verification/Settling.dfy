/**
 Every call can be brought to its outcome: each serving step brings it closer, whatever
 else is going on, so a bounded number of them, with no frame from the backend, no
 `close` and no exit of the child, ends with the call settled.
*/
module Settling {
  import opened Ledger
  import opened Liveness
  import opened Progress
  import opened Routes
  import opened Transport
  import opened TransportInvariant
  import opened TransportTheorems
  import opened Wire
  import opened WriteQueue

  /** How many serving steps may still be needed. */
  function Rank(s: State, id: RequestId): nat {
    var n := |s.routes.slots|;
    if IsPending(s.routes, id) then 1
    else if !IsWaiting(s.routes, id) then 0
    else
      match WaitingOf(s.routes, id).phase
      case AwaitingSlot => if SlotHeld(s.routes) then 2 else n + 2
      case Released(_) => n + 4
      case AwaitingHandshake => if s.handshake.Answered? then n + 7 else if s.handshake.Probing? then n + 6 else n + 5
      case Deferred => n + 8
  }

  function CallOf(r: Routes, id: RequestId): nat
    requires IsLive(r, id)
  {
    if IsPending(r, id) then PendingOf(r, id).call else WaitingOf(r, id).call
  }

  /** The call has its outcome, or it is still in a table and closer to it. */
  ghost predicate Advanced(s: State, s': State, id: RequestId)
    requires IsLive(s.routes, id)
  {
    var c := CallOf(s.routes, id);
    c in s'.routes.settled || (IsLive(s'.routes, id) && CallOf(s'.routes, id) == c && Rank(s', id) < Rank(s, id))
  }

  // ----- outcomes

  lemma FailAllSettles(r: Routes, c: nat)
    requires RoutesOk(r) && c < |r.calls|
    ensures c in FailAll(r).settled
  {
    FailAllKeeps(r);
  }

  lemma FailAllKeepsOutcomes(r: Routes)
    ensures r.settled <= FailAll(r).settled
  {
    hide ViewOf, SlotHeld;
  }

  lemma TerminateRoutes(s: State)
    ensures Terminate(s).routes == FailAll(s.routes)
  {
    hide FailAll, Retire;
  }

  lemma DropSettles(r: Routes, id: RequestId)
    requires IsPending(r, id)
    ensures PendingOf(r, id).call in DropPending(r, id).settled
  {
  }

  /** Clearing a pending route is its call's outcome. */
  lemma ClearSettles(cfg: Config, s: State, id: RequestId, tombstone: bool, after: Handshake)
    requires IsPending(s.routes, id) && s.child.Some?
    ensures PendingOf(s.routes, id).call in ClearPending(cfg, s, id, tombstone, after).routes.settled
  {
    hide ClearPending, DropPending, FailAll;
    DropSettles(s.routes, id);
    ClearPendingCases(cfg, s, id, tombstone, after);
    FailAllKeepsOutcomes(DropPending(s.routes, id));
  }

  lemma CallIsKnown(cfg: Config, s: State, id: RequestId)
    requires StateOk(cfg, s) && IsLive(s.routes, id)
    ensures CallOf(s.routes, id) < |s.routes.calls|
  {
    ViewFits(s.routes, id);
    assert ViewOf(s.routes)[id].call < |s.routes.calls|;
  }

  /** The deadline of a control route, or of the slot's holder, settles every call. */
  lemma FatalDeadlineSettles(cfg: Config, s: State, x: RequestId, c: nat)
    requires ValidConfig(cfg) && StateOk(cfg, s) && IsPending(s.routes, x) && c < |s.routes.calls|
    requires x.Control? || PendingOf(s.routes, x).slot
    ensures c in Deadline(cfg, s, x).routes.settled
  {
    var s1 := ClearPending(cfg, s, x, true, Broken(false));
    ClearPendingKeeps(cfg, s, x, true, Broken(false));
    ClearPendingForward(cfg, s, x, true, Broken(false));
    hide ClearPending, Terminate, ViewOf, FailAll, LedgerOk, Partitioned, WritesOk, LiveRoutesOk, HandshakeOk;
    TerminateRoutes(s1);
    FailAllSettles(s1.routes, c);
  }

  lemma DeadlineSettles(cfg: Config, s: State, id: RequestId)
    requires StateOk(cfg, s) && IsPending(s.routes, id)
    ensures PendingOf(s.routes, id).call in Deadline(cfg, s, id).routes.settled
  {
    PendingChild(cfg, s, id);
    hide StateOk, ClearPending, Terminate, HasStartedWrite, FailAll;
    var s1 := ClearPending(cfg, s, id, true, Broken(false));
    ClearSettles(cfg, s, id, true, Broken(false));
    TerminateRoutes(s1);
    FailAllKeepsOutcomes(s1.routes);
  }

  lemma CancelPendingSettles(cfg: Config, s: State, id: RequestId, rejection: bool)
    requires StateOk(cfg, s) && IsPending(s.routes, id) && !IsWaiting(s.routes, id)
    ensures PendingOf(s.routes, id).call in Cancel(cfg, s, id, rejection).routes.settled
  {
    PendingChild(cfg, s, id);
    hide StateOk, ClearPending, Terminate, HasStartedWrite, FailAll;
    var s1 := ClearPending(cfg, s, id, true, Broken(rejection));
    ClearSettles(cfg, s, id, true, Broken(rejection));
    TerminateRoutes(s1);
    FailAllKeepsOutcomes(s1.routes);
  }

  lemma CancelWaitingSettles(cfg: Config, s: State, id: RequestId, rejection: bool)
    requires IsWaiting(s.routes, id)
    ensures WaitingOf(s.routes, id).call in Cancel(cfg, s, id, rejection).routes.settled
  {
    DropWaitingSettles(s.routes, id);
    hide DropWaiting;
  }

  lemma OnlyOneTable(cfg: Config, s: State, id: RequestId)
    requires StateOk(cfg, s)
    ensures !(IsWaiting(s.routes, id) && IsPending(s.routes, id))
  {
    assert IdOk(s.routes, id);
  }

  /** A cancel gives a live call its outcome at once, in whatever phase it is, and does
      nothing to an id without one. */
  lemma CancelSettles(cfg: Config, s: State, id: RequestId, rejection: bool)
    requires StateOk(cfg, s)
    ensures IsLive(s.routes, id) ==> CallOf(s.routes, id) in Cancel(cfg, s, id, rejection).routes.settled
    ensures !IsLive(s.routes, id) ==> Cancel(cfg, s, id, rejection) == s
  {
    OnlyOneTable(cfg, s, id);
    if IsWaiting(s.routes, id) {
      CancelWaitingSettles(cfg, s, id, rejection);
    } else if IsPending(s.routes, id) {
      CancelPendingSettles(cfg, s, id, rejection);
    }
    hide StateOk, ClearPending, Terminate, RejectWaiting, HasStartedWrite;
  }

  lemma DropWaitingSettles(r: Routes, id: RequestId)
    requires IsWaiting(r, id)
    ensures WaitingOf(r, id).call in DropWaiting(r, id, false).settled
  {
  }

  // ----- the slot chain

  lemma DropShortens(r: Routes, id: RequestId)
    requires IsPending(r, id)
    ensures |DropPending(r, id).slots| <= |r.slots|
    ensures PendingOf(r, id).slot && r.slots != [] && r.slots[0] == PendingOf(r, id).call ==>
      DropPending(r, id).slots == r.slots[1..]
  {
  }

  /** Another route's removal leaves this one waiting as it was. */
  predicate SameWait(r: Routes, r': Routes, id: RequestId) {
    IsWaiting(r, id) && IsWaiting(r', id) && WaitingOf(r', id) == WaitingOf(r, id) && !IsPending(r', id)
  }

  lemma DropSpares(r: Routes, id: RequestId, x: RequestId)
    requires IsPending(r, x) && IsWaiting(r, id) && !IsPending(r, id) && x != id
    ensures SameWait(r, DropPending(r, x), id)
  {
  }

  lemma SkipAdvances(cfg: Config, s: State, id: RequestId)
    requires StateOk(cfg, s) && IsWaiting(s.routes, id) && WaitingOf(s.routes, id).phase == AwaitingSlot
    requires s.routes.slots != [] && !SlotHeld(s.routes)
    ensures Advanced(s, s.(routes := SkipSlot(s.routes)), id)
  {
    hide StateOk, SlotHeld, Advanced;
    NotBoth(cfg, s, id);
    SkipShortens(s.routes, id);
    hide SkipSlot;
    HeadLeaves(s, s.(routes := SkipSlot(s.routes)), id);
  }

  lemma SkipShortens(r: Routes, id: RequestId)
    requires r.slots != [] && IsWaiting(r, id) && !IsPending(r, id)
    ensures |SkipSlot(r).slots| < |r.slots| && SameWait(r, SkipSlot(r), id)
  {
  }

  /** The head of the chain is issued with the slot, or refused: the chain is held or shorter. */
  lemma HeadLeaves(s: State, s': State, id: RequestId)
    requires IsWaiting(s.routes, id) && WaitingOf(s.routes, id).phase == AwaitingSlot && !IsPending(s.routes, id)
    requires s.routes.slots != [] && !SlotHeld(s.routes) && SameWait(s.routes, s'.routes, id)
    requires SlotHeld(s'.routes) || |s'.routes.slots| < |s.routes.slots|
    ensures Advanced(s, s', id)
  {
    hide SlotHeld;
  }

  lemma WantedCall(cfg: Config, s: State)
    requires StateOk(cfg, s) && SlotWanted(s.routes)
    ensures var h := s.routes.calls[s.routes.slots[0]];
      && IsWaiting(s.routes, h) && WaitingOf(s.routes, h).phase == AwaitingSlot && WaitingOf(s.routes, h).call == s.routes.slots[0]
  {
    var h := s.routes.calls[s.routes.slots[0]];
    WaitingInView(s, h);
    WaitingFacts(s, h);
  }

  lemma DropHead(r: Routes, h: RequestId, id: RequestId)
    requires IsWaiting(r, h) && r.slots != [] && r.slots[0] == WaitingOf(r, h).call
    requires IsWaiting(r, id) && !IsPending(r, id)
    ensures WaitingOf(r, h).call in DropWaiting(r, h, true).settled
    ensures |DropWaiting(r, h, true).slots| < |r.slots|
    ensures h != id ==> SameWait(r, DropWaiting(r, h, true), id)
  {
  }

  lemma RejectHeadAdvances(cfg: Config, s: State, id: RequestId)
    requires StateOk(cfg, s) && IsWaiting(s.routes, id) && WaitingOf(s.routes, id).phase == AwaitingSlot
    requires SlotWanted(s.routes) && !SlotHeld(s.routes)
    ensures Advanced(s, RejectWaiting(s, s.routes.calls[s.routes.slots[0]], true), id)
  {
    hide StateOk, SlotHeld, ViewOf;
    NotBoth(cfg, s, id);
    WantedCall(cfg, s);
    var h := s.routes.calls[s.routes.slots[0]];
    DropHead(s.routes, h, id);
    hide DropWaiting;
    if h != id {
      HeadLeaves(s, RejectWaiting(s, h, true), id);
    }
  }

  lemma LaunchSpares(s: State, h: RequestId, slot: bool, id: RequestId)
    requires IsWaiting(s.routes, h) && !IsPending(s.routes, h) && s.child.Some?
    requires IsWaiting(s.routes, id) && !IsPending(s.routes, id)
    ensures var r := Launched(s, h, slot).routes;
      && IsPending(r, h) && PendingOf(r, h).call == WaitingOf(s.routes, h).call && PendingOf(r, h).slot == slot
      && r.slots == s.routes.slots && (h != id ==> SameWait(s.routes, r, id))
  {
  }

  lemma HoldsAfterLaunch(r: Routes, r': Routes, h: RequestId, child: nat)
    requires SlotWanted(r) && r.calls[r.slots[0]] == h
    requires ViewOf(r') == ViewOf(r)[h := Pends(r.slots[0], true, child)] && r'.slots == r.slots && r'.calls == r.calls
    ensures SlotHeld(r')
  {
    hide ViewOf;
  }

  lemma LaunchHolds(cfg: Config, s: State, h: RequestId)
    requires StateOk(cfg, s) && IsWaiting(s.routes, h) && s.child.Some?
    requires SlotWanted(s.routes) && s.routes.calls[s.routes.slots[0]] == h
    ensures SlotHeld(Launched(s, h, true).routes)
  {
    LaunchKeeps(s.routes, h, s.serials, s.child.value, true);
    WantedCall(cfg, s);
    LaunchCalls(s, h, true);
    hide StateOk, RoutesOk, Launch, ViewOf, SlotHeld;
    HoldsAfterLaunch(s.routes, Launched(s, h, true).routes, h, s.child.value);
  }

  lemma LaunchCalls(s: State, h: RequestId, slot: bool)
    requires IsWaiting(s.routes, h) && s.child.Some?
    ensures Launched(s, h, slot).routes.calls == s.routes.calls && Launched(s, h, slot).routes.slots == s.routes.slots
  {
  }

  // ----- submitting

  /** Submitting keeps the tables, or the route is cleared at once. */
  lemma SubmitCases(cfg: Config, s: State, id: RequestId, kind: Kind, line: Line, serial: nat)
    requires IsPending(s.routes, id)
    ensures var s' := Submit(cfg, s, id, kind, line, serial);
      if CanWrite(cfg, s, line) then s'.routes == s.routes && s'.handshake == s.handshake
      else s' == ClearPending(cfg, s, id, false, Broken(false))
  {
    hide ClearPending, CanWrite, Charge;
  }

  /** Another route's clearing settles this call, or leaves it waiting behind no longer a chain. */
  lemma ClearSpares(cfg: Config, s: State, x: RequestId, after: Handshake, id: RequestId)
    requires ValidConfig(cfg) && StateOk(cfg, s) && IsPending(s.routes, x) && (after.Broken? || after.Answered?)
    requires IsWaiting(s.routes, id) && x != id
    ensures var s' := ClearPending(cfg, s, x, false, after);
      || WaitingOf(s.routes, id).call in s'.routes.settled
      || (SameWait(s.routes, s'.routes, id) && |s'.routes.slots| <= |s.routes.slots|
          && (PendingOf(s.routes, x).slot && s.routes.slots != [] && s.routes.slots[0] == PendingOf(s.routes, x).call ==>
                |s'.routes.slots| < |s.routes.slots|))
  {
    NotBoth(cfg, s, id);
    PendingChild(cfg, s, x);
    DetachKeeps(cfg, s, x, after);
    CallIsKnown(cfg, s, id);
    hide ClearPending, DropPending, FailAll, RoutesOk;
    ClearedRoutes(cfg, s, x, false, after);
    ClearPendingCases(cfg, s, x, false, after);
    DropShortens(s.routes, x);
    DropSpares(s.routes, id, x);
    DetachKnows(cfg, s, x, after, WaitingOf(s.routes, id).call);
  }

  lemma DetachKnows(cfg: Config, s: State, x: RequestId, after: Handshake, c: nat)
    requires IsPending(s.routes, x) && StateOk(cfg, Detach(s, x, after)) && c < |s.routes.calls|
    ensures c in FailAll(DropPending(s.routes, x)).settled
  {
    hide FailAll;
    FailAllSettles(DropPending(s.routes, x), c);
  }

  lemma NowPending(s: State, s': State, id: RequestId)
    requires IsWaiting(s.routes, id) && !IsPending(s.routes, id) && IsPending(s'.routes, id)
    requires PendingOf(s'.routes, id).call == WaitingOf(s.routes, id).call
    ensures Advanced(s, s', id)
  {
    hide SlotHeld;
  }

  lemma NowSettled(s: State, s': State, id: RequestId)
    requires IsWaiting(s.routes, id) && !IsPending(s.routes, id) && WaitingOf(s.routes, id).call in s'.routes.settled
    ensures Advanced(s, s', id)
  {
    hide Rank;
  }

  lemma IssueUnfolds(cfg: Config, s: State, id: RequestId, slot: bool)
    requires IsWaiting(s.routes, id) && !IsPending(s.routes, id) && s.child.Some?
    ensures IsPending(Launched(s, id, slot).routes, id)
    ensures Launched(s, id, slot).child == s.child
    ensures var s1 := Launched(s, id, slot);
      Issue(cfg, s, id, slot)
        == Submit(cfg, s1, id, if id in s.routes.waitingRequests then Unary else Stream, WaitingOf(s.routes, id).line, s.serials)
  {
    LaunchSpares(s, id, slot, id);
    hide Submit, Launch;
  }

  /** Issuing the call itself: it is pending, or refused on the spot. */
  lemma IssueOwnAdvances(cfg: Config, s: State, id: RequestId, slot: bool)
    requires StateOk(cfg, s) && IsWaiting(s.routes, id) && s.child.Some?
    ensures Advanced(s, Issue(cfg, s, id, slot), id)
  {
    hide StateOk, Submit, Launched, ClearPending, CanWrite, Advanced, Issue;
    NotBoth(cfg, s, id);
    LaunchSpares(s, id, slot, id);
    IssueUnfolds(cfg, s, id, slot);
    var s1, line := Launched(s, id, slot), WaitingOf(s.routes, id).line;
    SubmitCases(cfg, s1, id, if id in s.routes.waitingRequests then Unary else Stream, line, s.serials);
    if CanWrite(cfg, s1, line) {
      NowPending(s, Issue(cfg, s, id, slot), id);
    } else {
      ClearSettles(cfg, s1, id, false, Broken(false));
      NowSettled(s, Issue(cfg, s, id, slot), id);
    }
  }

  /** Issuing the head of the chain brings whoever waits behind it closer. */
  lemma IssueHeadAdvances(cfg: Config, s: State, id: RequestId)
    requires ValidConfig(cfg) && StateOk(cfg, s) && IsWaiting(s.routes, id) && WaitingOf(s.routes, id).phase == AwaitingSlot
    requires SlotWanted(s.routes) && !SlotHeld(s.routes) && CanIssue(s)
    requires s.routes.calls[s.routes.slots[0]] != id
    ensures Advanced(s, Issue(cfg, s, s.routes.calls[s.routes.slots[0]], true), id)
  {
    var h := s.routes.calls[s.routes.slots[0]];
    QueuedIsSingleFlight(cfg, s, id);
    WantedCall(cfg, s);
    LaunchHolds(cfg, s, h);
    LaunchedKeeps(cfg, s, h, true);
    hide StateOk, Submit, Launched, ClearPending, CanWrite, Advanced, Issue, SlotHeld, SlotWanted;
    NotBoth(cfg, s, id);
    NotBoth(cfg, s, h);
    LaunchSpares(s, h, true, id);
    IssueUnfolds(cfg, s, h, true);
    var s1, line := Launched(s, h, true), WaitingOf(s.routes, h).line;
    SubmitCases(cfg, s1, h, if h in s.routes.waitingRequests then Unary else Stream, line, s.serials);
    if CanWrite(cfg, s1, line) {
      HeadLeaves(s, Issue(cfg, s, h, true), id);
    } else {
      ClearSpares(cfg, s1, h, Broken(false), id);
      RefusedHeadAdvances(s, Issue(cfg, s, h, true), id);
    }
  }

  lemma RefusedHeadAdvances(s: State, s': State, id: RequestId)
    requires IsWaiting(s.routes, id) && WaitingOf(s.routes, id).phase == AwaitingSlot && !IsPending(s.routes, id)
    requires s.routes.slots != [] && !SlotHeld(s.routes)
    requires || WaitingOf(s.routes, id).call in s'.routes.settled
             || (SameWait(s.routes, s'.routes, id) && |s'.routes.slots| < |s.routes.slots|)
    ensures Advanced(s, s', id)
  {
    hide SlotHeld, Advanced;
    if WaitingOf(s.routes, id).call in s'.routes.settled {
      NowSettled(s, s', id);
    } else {
      HeadLeaves(s, s', id);
    }
  }

  lemma QueuedIsSingleFlight(cfg: Config, s: State, id: RequestId)
    requires StateOk(cfg, s) && IsWaiting(s.routes, id) && WaitingOf(s.routes, id).phase == AwaitingSlot
    ensures IsSingleFlight(s.handshakeState)
  {
    WaitingFacts(s, id);
  }

  lemma GrantAdvances(cfg: Config, s: State, id: RequestId)
    requires ValidConfig(cfg) && StateOk(cfg, s) && IsWaiting(s.routes, id) && WaitingOf(s.routes, id).phase == AwaitingSlot
    requires s.routes.slots != [] && !SlotHeld(s.routes)
    ensures Advanced(s, Grant(cfg, s), id)
  {
    hide StateOk, Issue, RejectWaiting, CanPromote, Advanced, SlotHeld, ViewOf, SkipSlot;
    if !SlotWanted(s.routes) {
      SkipAdvances(cfg, s, id);
    } else {
      var h := s.routes.calls[s.routes.slots[0]];
      if (h in s.routes.waitingRequests || CanPromote(cfg, s, h)) && CanIssue(s) {
        if h == id {
          IssueOwnAdvances(cfg, s, id, true);
        } else {
          IssueHeadAdvances(cfg, s, id);
        }
      } else {
        RejectHeadAdvances(cfg, s, id);
      }
    }
  }

  // ----- the call's own continuation

  lemma RejectAdvances(s: State, id: RequestId, granted: bool)
    requires IsWaiting(s.routes, id) && !IsPending(s.routes, id)
    ensures Advanced(s, RejectWaiting(s, id, granted), id)
  {
    hide Rank;
  }

  lemma AcquireAdvances(s: State, id: RequestId)
    requires IsWaiting(s.routes, id) && !IsPending(s.routes, id) && WaitingOf(s.routes, id).phase.Released?
    ensures Advanced(s, s.(routes := AcquireSlot(s.routes, id)), id)
  {
    hide SlotHeld;
  }

  lemma ResumeAdvances(cfg: Config, s: State, id: RequestId)
    requires StateOk(cfg, s) && IsWaiting(s.routes, id) && WaitingOf(s.routes, id).phase.Released?
    ensures Advanced(s, Resume(cfg, s, id), id)
  {
    hide StateOk, Issue, RejectWaiting, CanPromote, AcquireSlot, Advanced;
    NotBoth(cfg, s, id);
    RejectAdvances(s, id, false);
    AcquireAdvances(s, id);
    if s.child.Some? {
      IssueOwnAdvances(cfg, s, id, false);
    }
  }

  // ----- the handshake's continuation

  /** The handshake has settled one way or the other for whoever awaited it. */
  lemma ReleaseAdvances(cfg: Config, s: State, s': State, id: RequestId, ok: bool)
    requires StateOk(cfg, s) && IsWaiting(s.routes, id) && WaitingOf(s.routes, id).phase == AwaitingHandshake
    requires s'.routes == ReleaseWaiters(s.routes, ok) || s'.routes == FailAll(ReleaseWaiters(s.routes, ok))
    ensures Advanced(s, s', id)
  {
    hide StateOk, FailAll, ReleaseWaiters, Advanced;
    NotBoth(cfg, s, id);
    if s'.routes == ReleaseWaiters(s.routes, ok) {
      ReleasedAdvances(s, s', id, ok);
    } else {
      ReleaseKnows(cfg, s, id, ok);
      NowSettled(s, s', id);
    }
  }

  lemma ReleasedAdvances(s: State, s': State, id: RequestId, ok: bool)
    requires IsWaiting(s.routes, id) && !IsPending(s.routes, id) && WaitingOf(s.routes, id).phase == AwaitingHandshake
    requires s'.routes == ReleaseWaiters(s.routes, ok)
    ensures Advanced(s, s', id)
  {
    hide SlotHeld;
  }

  lemma ReleaseKnows(cfg: Config, s: State, id: RequestId, ok: bool)
    requires StateOk(cfg, s) && IsWaiting(s.routes, id) && !IsPending(s.routes, id)
    ensures WaitingOf(s.routes, id).call in FailAll(ReleaseWaiters(s.routes, ok)).settled
  {
    CallIsKnown(cfg, s, id);
    ReleaseWaitersKeeps(s.routes, ok);
    hide StateOk, RoutesOk, FailAll, ViewOf;
    FailAllSettles(ReleaseWaiters(s.routes, ok), WaitingOf(s.routes, id).call);
  }

  lemma GiveUpCases(s: State)
    ensures GiveUp(s).routes == ReleaseWaiters(s.routes, false) || GiveUp(s).routes == FailAll(ReleaseWaiters(s.routes, false))
  {
    hide FailAll, ReleaseWaiters, Retire;
  }

  lemma GiveUpAdvances(cfg: Config, s: State, id: RequestId)
    requires StateOk(cfg, s) && IsWaiting(s.routes, id) && WaitingOf(s.routes, id).phase == AwaitingHandshake
    ensures Advanced(s, GiveUp(s), id)
  {
    GiveUpCases(s);
    hide StateOk, GiveUp, Advanced, ReleaseWaiters, FailAll;
    ReleaseAdvances(cfg, s, GiveUp(s), id, false);
  }

  lemma SucceedAdvances(cfg: Config, s: State, h: HandshakeState, id: RequestId)
    requires StateOk(cfg, s) && IsWaiting(s.routes, id) && WaitingOf(s.routes, id).phase == AwaitingHandshake
    ensures Advanced(s, Succeed(s, h), id)
  {
    SucceedCases(s, h);
    hide StateOk, Succeed, Advanced, ReleaseWaiters, FailAll;
    ReleaseAdvances(cfg, s, Succeed(s, h), id, true);
  }

  lemma BlockSettles(cfg: Config, s: State, c: nat)
    requires StateOk(cfg, s) && c < |s.routes.calls|
    ensures c in Block(s).routes.settled
  {
    hide StateOk, FailAll, Retire;
    StateRoutes(cfg, s);
    FailAllSettles(s.routes, c);
    FailAllKeepsOutcomes(FailAll(s.routes));
    TerminateRoutes(s);
  }

  lemma StateRoutes(cfg: Config, s: State)
    requires StateOk(cfg, s)
    ensures RoutesOk(s.routes)
  {
  }

  lemma BlockAdvances(cfg: Config, s: State, id: RequestId)
    requires StateOk(cfg, s) && IsWaiting(s.routes, id)
    ensures Advanced(s, Block(s), id)
  {
    hide StateOk, Block, Advanced;
    NotBoth(cfg, s, id);
    CallIsKnown(cfg, s, id);
    BlockSettles(cfg, s, WaitingOf(s.routes, id).call);
    NowSettled(s, Block(s), id);
  }

  /** Opening a probe leaves whoever awaits the handshake where it is. */
  lemma ProbedSpares(s: State, stage: Stage, id: RequestId)
    requires s.child.Some? && IsWaiting(s.routes, id) && !IsPending(s.routes, id) && id.Caller?
    ensures var s1 := Probed(s, stage);
      && SameWait(s.routes, s1.routes, id) && s1.routes.slots == s.routes.slots
      && s1.handshake == Probing(ControlId(s), stage) && IsPending(s1.routes, ControlId(s))
      && !PendingOf(s1.routes, ControlId(s)).slot
  {
  }

  /** A refused probe breaks the handshake, and does no more. */
  lemma RefusedProbe(cfg: Config, s: State, x: RequestId)
    requires IsPending(s.routes, x) && s.handshake.Probing? && s.handshake.id == x
    ensures var s' := ClearPending(cfg, s, x, false, Broken(false));
      s'.routes == DropPending(s.routes, x) && s'.handshake == Broken(false)
  {
    hide DropPending;
  }

  /** From an answer to the next probe: it is under way, or has already failed. */
  lemma ProbedAdvances(s: State, s': State, id: RequestId)
    requires IsWaiting(s.routes, id) && !IsPending(s.routes, id) && WaitingOf(s.routes, id).phase == AwaitingHandshake
    requires s.handshake.Answered? && SameWait(s.routes, s'.routes, id) && |s'.routes.slots| <= |s.routes.slots|
    requires s'.handshake.Probing? || s'.handshake.Broken?
    ensures Advanced(s, s', id)
  {
    hide SlotHeld;
  }

  lemma StartedProbeAdvances(cfg: Config, s: State, stage: Stage, id: RequestId)
    requires StateOk(cfg, s) && s.child.Some? && s.handshake.Answered?
    requires IsWaiting(s.routes, id) && WaitingOf(s.routes, id).phase == AwaitingHandshake
    ensures var line := Line(if stage == Hello then cfg.helloBytes else cfg.probeBytes, true);
      IsPending(Probed(s, stage).routes, ControlId(s))
      && Advanced(s, Submit(cfg, Probed(s, stage), ControlId(s), Unary, line, s.serials), id)
  {
    WaitingFacts(s, id);
    hide StateOk, Submit, ClearPending, CanWrite, Advanced, Probed, ViewOf;
    NotBoth(cfg, s, id);
    ProbedSpares(s, stage, id);
    var s1, x := Probed(s, stage), ControlId(s);
    var line := Line(if stage == Hello then cfg.helloBytes else cfg.probeBytes, true);
    SubmitCases(cfg, s1, x, Unary, line, s.serials);
    var s' := Submit(cfg, s1, x, Unary, line, s.serials);
    if CanWrite(cfg, s1, line) {
      ProbedAdvances(s, s', id);
    } else {
      RefusedProbe(cfg, s1, x);
      DropShortens(s1.routes, x);
      DropSpares(s1.routes, id, x);
      hide DropPending;
      ProbedAdvances(s, s', id);
    }
  }

  lemma ProbeSplits(cfg: Config, s: State, stage: Stage)
    requires s.child.Some?
    ensures var (s1, started) := Probe(cfg, s, stage);
      s1 == if started
            then Submit(cfg, Probed(s, stage), ControlId(s), Unary,
                        Line(if stage == Hello then cfg.helloBytes else cfg.probeBytes, true), s.serials)
            else s.(handshakeGeneration := s.handshakeGeneration + 1)
  {
    hide Submit, OpenControl, IsFreeId, HasCapacity;
  }

  lemma ChildlessProbe(cfg: Config, s: State, stage: Stage)
    requires s.closed
    ensures Probe(cfg, s, stage) == (s.(handshakeGeneration := s.handshakeGeneration + 1), false)
  {
    hide Submit, OpenControl, HasCapacity;
  }

  lemma AnsweredChild(cfg: Config, s: State)
    requires StateOk(cfg, s) && s.handshake.Answered?
    ensures s.child.Some? || s.closed
  {
  }

  lemma MintedAdvances(cfg: Config, s: State, id: RequestId)
    requires ValidConfig(cfg) && StateOk(cfg, s)
    requires IsWaiting(s.routes, id) && WaitingOf(s.routes, id).phase == AwaitingHandshake
    ensures Advanced(s, GiveUp(s.(handshakeGeneration := s.handshakeGeneration + 1)), id)
  {
    var s1 := s.(handshakeGeneration := s.handshakeGeneration + 1);
    hide StateOk, GiveUp, SlotHeld;
    MintedKeeps(cfg, s);
    GiveUpAdvances(cfg, s1, id);
  }

  lemma NextProbeAdvances(cfg: Config, s: State, stage: Stage, id: RequestId)
    requires ValidConfig(cfg) && StateOk(cfg, s) && s.handshake.Answered?
    requires IsWaiting(s.routes, id) && WaitingOf(s.routes, id).phase == AwaitingHandshake
    ensures Advanced(s, NextProbe(cfg, s, stage), id)
  {
    hide StateOk, Probe, GiveUp, Submit, Probed, Advanced;
    AnsweredChild(cfg, s);
    MintedAdvances(cfg, s, id);
    if s.child.Some? {
      ProbeSplits(cfg, s, stage);
      StartedProbeAdvances(cfg, s, stage, id);
    } else {
      ChildlessProbe(cfg, s, stage);
    }
  }

  lemma ContinueAdvances(cfg: Config, s: State, id: RequestId)
    requires ValidConfig(cfg) && StateOk(cfg, s) && MicrotaskDue(s)
    requires IsWaiting(s.routes, id) && WaitingOf(s.routes, id).phase == AwaitingHandshake
    ensures Advanced(s, ContinueHandshake(cfg, s), id)
  {
    hide StateOk, Advanced, Succeed, GiveUp, Block, NextProbe, IsWaiting, WaitingOf;
    GiveUpAdvances(cfg, s, id);
    BlockAdvances(cfg, s, id);
    if s.handshake.Answered? {
      SucceedAdvances(cfg, s, Ready, id);
      SucceedAdvances(cfg, s, SingleFlight, id);
      SucceedAdvances(cfg, s, Legacy, id);
      NextProbeAdvances(cfg, s, LegacyVersion, id);
      NextProbeAdvances(cfg, s, LegacyCapabilities(true), id);
      NextProbeAdvances(cfg, s, LegacyCapabilities(false), id);
    }
  }

  // ----- a stream asks for the handshake

  lemma SubmitSlots(cfg: Config, s: State, id: RequestId, kind: Kind, line: Line, serial: nat)
    requires IsPending(s.routes, id) && s.child.Some?
    ensures |Submit(cfg, s, id, kind, line, serial).routes.slots| <= |s.routes.slots|
  {
    hide Submit, ClearPending, CanWrite, DropPending;
    SubmitCases(cfg, s, id, kind, line, serial);
    ClearPendingCases(cfg, s, id, false, Broken(false));
    DropShortens(s.routes, id);
    FailAllSlots(DropPending(s.routes, id));
  }

  lemma FailAllSlots(r: Routes)
    ensures |FailAll(r).slots| <= |r.slots|
  {
    hide ViewOf;
  }

  lemma ProbeSlots(cfg: Config, s: State, stage: Stage)
    requires s.child.Some?
    ensures |Probe(cfg, s, stage).0.routes.slots| <= |s.routes.slots|
  {
    hide Probe, Submit;
    ProbeSplits(cfg, s, stage);
    ProbedSlots(s, stage);
    hide Probed;
    SubmitSlots(cfg, Probed(s, stage), ControlId(s), Unary,
                Line(if stage == Hello then cfg.helloBytes else cfg.probeBytes, true), s.serials);
  }

  lemma ProbedSlots(s: State, stage: Stage)
    requires s.child.Some?
    ensures IsPending(Probed(s, stage).routes, ControlId(s)) && Probed(s, stage).child == s.child
    ensures Probed(s, stage).routes.slots == s.routes.slots
  {
  }

  lemma EnsureSlots(cfg: Config, s: State)
    ensures |EnsureHandshake(cfg, s).0.routes.slots| <= |s.routes.slots|
  {
    hide Probe;
    if s.child.None? {
      ProbeSlots(cfg, Spawn(s), Hello);
    } else {
      ProbeSlots(cfg, s, Hello);
    }
  }

  lemma AfterEnsureAdvances(s: State, s1: State, v: Verdict, id: RequestId)
    requires IsWaiting(s.routes, id) && !IsPending(s.routes, id) && WaitingOf(s.routes, id).phase == Deferred
    requires IsWaiting(s1.routes, id) && WaitingOf(s1.routes, id) == WaitingOf(s.routes, id) && !IsPending(s1.routes, id)
    requires |s1.routes.slots| <= |s.routes.slots|
    ensures Advanced(s, AfterEnsure(s1, v, id), id)
  {
    hide SlotHeld;
  }

  lemma StreamHandshakeAdvances(cfg: Config, s: State, id: RequestId)
    requires ValidConfig(cfg) && StateOk(cfg, s)
    requires IsWaiting(s.routes, id) && WaitingOf(s.routes, id).phase == Deferred
    ensures Advanced(s, StreamHandshake(cfg, s, id), id)
  {
    hide StateOk, EnsureHandshake, AfterEnsure, Advanced;
    EnsureHandshakeKeeps(cfg, s);
    EnsureSlots(cfg, s);
    var (s1, v) := EnsureHandshake(cfg, s);
    NotBoth(cfg, s, id);
    NotBoth(cfg, s1, id);
    AfterEnsureAdvances(s, s1, v, id);
  }

  // ----- the claim

  lemma DeadlineAdvances(cfg: Config, s: State, id: RequestId)
    requires ValidConfig(cfg) && StateOk(cfg, s) && IsPending(s.routes, id)
    ensures Advanced(s, Deadline(cfg, s, id), id)
  {
    hide StateOk, Deadline, Rank;
    DeadlineSettles(cfg, s, id);
  }

  lemma OthersDeadlineAdvances(cfg: Config, s: State, id: RequestId, x: RequestId)
    requires ValidConfig(cfg) && StateOk(cfg, s) && IsWaiting(s.routes, id) && IsPending(s.routes, x)
    requires x.Control? || PendingOf(s.routes, x).slot
    ensures Advanced(s, Deadline(cfg, s, x), id)
  {
    hide StateOk, Deadline, Advanced;
    NotBoth(cfg, s, id);
    CallIsKnown(cfg, s, id);
    FatalDeadlineSettles(cfg, s, x, WaitingOf(s.routes, id).call);
    NowSettled(s, Deadline(cfg, s, x), id);
  }

  /** The serving step of a call always brings it closer to its outcome. */
  lemma ServingAdvances(cfg: Config, s: State, id: RequestId)
    requires ValidConfig(cfg) && StateOk(cfg, s) && NoOrphans(s) && IsLive(s.routes, id)
    ensures Enabled(s, ServingStep(s, id)) && Advanced(s, Next(cfg, s, ServingStep(s, id)), id)
  {
    hide StateOk, NoOrphans, SlotHeld, Advanced, Deadline, StreamHandshake, Resume, Grant, ContinueHandshake;
    ServingIsEnabled(cfg, s, id);
    if IsPending(s.routes, id) {
      DeadlineAdvances(cfg, s, id);
    } else {
      match WaitingOf(s.routes, id).phase
      case Deferred => StreamHandshakeAdvances(cfg, s, id);
      case Released(_) => ResumeAdvances(cfg, s, id);
      case AwaitingHandshake =>
        if s.handshake.Probing? {
          ProbeIsPending(cfg, s);
          OthersDeadlineAdvances(cfg, s, id, s.handshake.id);
        } else {
          ContinueAdvances(cfg, s, id);
        }
      case AwaitingSlot =>
        QueuedIsInChain(cfg, s, id);
        if SlotHeld(s.routes) {
          HeadCanExpire(cfg, s);
          OthersDeadlineAdvances(cfg, s, id, s.routes.calls[s.routes.slots[0]]);
        } else {
          GrantAdvances(cfg, s, id);
        }
    }
  }

  predicate IsServing(step: Step) {
    step.StreamHandshakeStep? || step.ResumeStep? || step.GrantStep? || step.ContinueStep? || step.DeadlineStep?
  }

  /** A run in which every step is the one that serves `id` when it is taken. */
  predicate Serving(cfg: Config, s: State, id: RequestId, steps: seq<Step>)
    decreases |steps|
  {
    steps == []
    || (IsLive(s.routes, id) && steps[0] == ServingStep(s, id) && IsServing(steps[0]) && Enabled(s, steps[0])
        && Serving(cfg, Next(cfg, s, steps[0]), id, steps[1..]))
  }

  lemma ServingIsServing(s: State, id: RequestId)
    requires IsLive(s.routes, id)
    ensures IsServing(ServingStep(s, id))
  {
    hide SlotHeld;
  }

  lemma RankIsPositive(s: State, id: RequestId)
    requires IsLive(s.routes, id)
    ensures 1 <= Rank(s, id) <= |s.routes.slots| + 8
  {
    hide SlotHeld;
  }

  lemma {:induction false} ServingSettles(cfg: Config, s: State, id: RequestId, rank: nat) returns (steps: seq<Step>)
    requires ValidConfig(cfg) && StateOk(cfg, s) && NoOrphans(s) && IsLive(s.routes, id) && rank == Rank(s, id)
    ensures Serving(cfg, s, id, steps) && |steps| <= rank
    ensures Run(cfg, s, steps).Some? && CallOf(s.routes, id) in Run(cfg, s, steps).value.routes.settled
    decreases rank
  {
    hide StateOk, NoOrphans, SlotHeld, Rank, ServingStep, Next, Enabled;
    var step := ServingStep(s, id);
    ServingAdvances(cfg, s, id);
    ServingIsServing(s, id);
    RankIsPositive(s, id);
    var s' := Next(cfg, s, step);
    if CallOf(s.routes, id) in s'.routes.settled {
      steps := [step];
      assert steps[1..] == [];
    } else {
      NextKeeps(cfg, s, step);
      NextKeepsNoOrphans(cfg, s, step);
      var rest := ServingSettles(cfg, s', id, Rank(s', id));
      steps := [step] + rest;
      assert steps[1..] == rest;
    }
  }

  /** From every reachable state, a call without an outcome gets one by a bounded run of
      the steps that serve it: neither a frame, nor a `close`, nor the child's exit, nor
      another call is needed. */
  lemma EveryCallCanSettle(cfg: Config, steps: seq<Step>, s: State, id: RequestId)
    requires Reaches(cfg, steps, s) && IsLive(s.routes, id)
    ensures exists more ::
      (|more| <= |s.routes.slots| + 8 && Serving(cfg, s, id, more)
       && Run(cfg, s, more).Some? && CallOf(s.routes, id) in Run(cfg, s, more).value.routes.settled)
  {
    hide StateOk, Run, Serving, NoOrphans, Rank;
    ReachableOk(cfg, steps, s);
    InitialOk(cfg);
    InitialHasNoOrphans();
    RunKeepsNoOrphans(cfg, INITIAL, steps);
    RankIsPositive(s, id);
    var more := ServingSettles(cfg, s, id, Rank(s, id));
  }

  lemma InitialHasNoOrphans()
    ensures NoOrphans(INITIAL)
  {
  }
}
