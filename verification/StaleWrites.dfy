/**
 Why the end-to-end claim excludes hits. A line queued for a retired child fails when its
 chain is finally drained; the failure handler looks its route up by id, and if that id
 has been admitted again the new route is rejected and its id freed while the current
 child still owes the answer.
*/
module StaleWrites {
  import opened Custody
  import opened Ledger
  import opened Routes
  import opened Transport
  import opened TransportInvariant
  import opened Wire
  import opened WriteQueue

  /** Draining a retired child's unstarted line leaves every held id held if and only if
      no route of its kind is pending under its id. */
  lemma StaleFailureExactly(cfg: Config, s: State)
    requires ValidConfig(cfg) && StateOk(cfg, s) && !s.protocolQuarantined && Enabled(s, BeginWriteStep(true))
    ensures KeepsCustody(s, BeginWrite(cfg, s, true)) <==> !Hits(s, Retired(s.writes)[0])
  {
    hide StateOk, BeginWrite, KeepsCustody;
    if Hits(s, Retired(s.writes)[0]) {
      StaleHit(cfg, s);
    } else {
      StaleMiss(cfg, s);
    }
  }

  lemma StaleHit(cfg: Config, s: State)
    requires ValidConfig(cfg) && StateOk(cfg, s) && !s.protocolQuarantined && Enabled(s, BeginWriteStep(true))
    requires Hits(s, Retired(s.writes)[0])
    ensures !KeepsCustody(s, BeginWrite(cfg, s, true))
  {
    hide StateOk, BeginWrite, HolderOf;
    HitLeavesUnheld(cfg, s);
  }

  /** A hit takes the id from the route that held it, and leaves everything else of the
      current child as it was. */
  lemma HitLeavesUnheld(cfg: Config, s: State)
    requires ValidConfig(cfg) && StateOk(cfg, s) && !s.protocolQuarantined && Enabled(s, BeginWriteStep(true))
    requires Hits(s, Retired(s.writes)[0])
    ensures var id, s' := Retired(s.writes)[0].id, BeginWrite(cfg, s, true);
      && HolderOf(s, id).Some? && HolderOf(s', id).None? && !IsWaiting(s'.routes, id)
      && s.child.Some? && s'.child == s.child && s'.spawned == s.spawned
      && s'.deliveries == s.deliveries && s'.quarantinedRequestIds == {}
  {
    var a := Retired(s.writes)[0];
    var s1 := s.(writes := Release(s.writes, true));
    RetiredNeverStarts(cfg, s);
    PendingIsUnblocked(cfg, s, a.id);
    ReleasedKeeps(cfg, s, true);
    hide StateOk, Release, HolderOf, BeginWrite, WriteRejected;
    HitUnfolds(cfg, s);
    HitFrees(cfg, s, s1, a);
  }

  lemma PendingIsUnblocked(cfg: Config, s: State, id: RequestId)
    requires StateOk(cfg, s) && IsPending(s.routes, id) && !s.protocolQuarantined
    ensures s.child.Some? && s.handshakeState != Blocked && s.quarantinedRequestIds == {}
    ensures !IsWaiting(s.routes, id)
  {
    PendingFacts(s, id);
    assert IdOk(s.routes, id);
  }

  /** Only the blocked transport's own error leaves it open whether the line was sent. */
  lemma HitUnfolds(cfg: Config, s: State)
    requires Retired(s.writes) != [] && !MayStart(s, Retired(s.writes)[0]) && s.handshakeState != Blocked
    ensures BeginWrite(cfg, s, true)
         == WriteRejected(cfg, s.(writes := Release(s.writes, true)), Retired(s.writes)[0], false)
  {
    hide Release, WriteRejected, MayStart;
  }

  lemma StaleMiss(cfg: Config, s: State)
    requires ValidConfig(cfg) && StateOk(cfg, s) && !s.protocolQuarantined && Enabled(s, BeginWriteStep(true))
    requires !Hits(s, Retired(s.writes)[0])
    ensures KeepsCustody(s, BeginWrite(cfg, s, true))
  {
    RetiredNeverStarts(cfg, s);
    var s1 := s.(writes := Release(s.writes, true));
    ReleaseShrinks(s.writes, true);
    hide StateOk, Release, ClearPending;
    assert forall x :: HolderOf(s1, x) == HolderOf(s, x);
  }

  lemma RetiredNeverStarts(cfg: Config, s: State)
    requires ValidConfig(cfg) && StateOk(cfg, s) && Enabled(s, BeginWriteStep(true))
    ensures !MayStart(s, Retired(s.writes)[0])
  {
  }

  lemma DropWaitsAlike(r: Routes, id: RequestId)
    requires IsPending(r, id)
    ensures IsWaiting(DropPending(r, id), id) <==> IsWaiting(r, id)
  {
  }

  lemma HitFrees(cfg: Config, s: State, s1: State, a: Admission)
    requires ValidConfig(cfg) && StateOk(cfg, s1) && !s.protocolQuarantined && Hits(s, a)
    requires s1 == s.(writes := s1.writes) && s.child.Some? && !IsWaiting(s.routes, a.id)
    ensures var s' := WriteRejected(cfg, s1, a, false);
      && s'.child == s.child && s'.spawned == s.spawned && HolderOf(s, a.id).Some? && HolderOf(s', a.id).None?
      && s'.deliveries == s.deliveries && s'.quarantinedRequestIds == s.quarantinedRequestIds
      && !IsWaiting(s'.routes, a.id)
  {
    DropWaitsAlike(s1.routes, a.id);
    hide StateOk, ClearPending, Detach, DropPending;
    ClearFrees(cfg, s1, a.id, Broken(false));
    DetachFields(s1, a.id, Broken(false));
  }

  // ----- the transport's part in a run that goes wrong

  const X := Caller("x")
  const LINE := Line(1, true)
  const OK := Result(true, true, true)
  const CFG := Config(2, WriteLimits(8, 8), 1, 1, 8, 1, 1)

  predicate Goes(s: State, step: Step, s': State) {
    Enabled(s, step) && Next(CFG, s, step) == s'
  }

  // the first child is spawned and its hello queued
  const S1 := INITIAL.(child := Some(0), spawned := 1, handshake := Probing(Control(1), Hello), handshakeGeneration := 1, serials := 1,
    routes := Tables(map[X := Waiting(0, LINE, AwaitingHandshake)], map[], map[Control(1) := Pending(1, 0, 0, false)], map[], {X}, {Control(1)}, {Control(1)}, [], [X, Control(1)], {}),
    writes := Writes([Admission(Control(1), Unary, 0, 1, 0, false)], None, 1, 1, false))
  // the hello reaches stdin, but its callback does not come
  const S2 := S1.(writes := Writes([Admission(Control(1), Unary, 0, 1, 0, true)], None, 1, 1, false))
  const S3 := S2.(handshake := Answered(Hello, OK), deliveries := {Delivery(0, 0, 0, 0)},
    routes := Tables(map[X := Waiting(0, LINE, AwaitingHandshake)], map[], map[], map[], {X}, {}, {}, [], [X, Control(1)], {1}))
  // negotiation succeeds all the same
  const S4 := S3.(handshakeState := Ready, handshake := NoHandshake, negotiated := {0},
    routes := Tables(map[X := Waiting(0, LINE, Released(true))], map[], map[], map[], {X}, {}, {}, [], [X, Control(1)], {1}))
  // the caller's line is queued behind the unfinished hello
  const S5 := S4.(serials := 2, routes := Tables(map[], map[], map[X := Pending(0, 1, 0, false)], map[], {}, {X}, {}, [], [X, Control(1)], {1}),
    writes := Writes([Admission(Control(1), Unary, 0, 1, 0, true), Admission(X, Unary, 1, 1, 0, false)], None, 2, 2, false))
  // the child exits; both lines are retired
  const S6 := S5.(child := None, handshakeState := Unknown,
    routes := Tables(map[], map[], map[], map[], {}, {}, {}, [], [X, Control(1)], {0, 1}),
    writes := Writes([], Some([Admission(Control(1), Unary, 0, 1, 0, true), Admission(X, Unary, 1, 1, 0, false)]), 2, 2, false))
  // the caller tries again under the same id, on a second child
  const S7 := S6.(child := Some(1), spawned := 2, handshake := Probing(Control(2), Hello), handshakeGeneration := 2, serials := 3,
    routes := Tables(map[X := Waiting(2, LINE, AwaitingHandshake)], map[], map[Control(2) := Pending(3, 2, 1, false)], map[], {X}, {Control(2)}, {Control(2)}, [], [X, Control(1), X, Control(2)], {0, 1}),
    writes := Writes([Admission(Control(2), Unary, 2, 1, 1, false)], Some([Admission(Control(1), Unary, 0, 1, 0, true), Admission(X, Unary, 1, 1, 0, false)]), 3, 3, false))
  const S8 := S7.(writes := Writes([Admission(Control(2), Unary, 2, 1, 1, true)], Some([Admission(Control(1), Unary, 0, 1, 0, true), Admission(X, Unary, 1, 1, 0, false)]), 3, 3, false))
  const S9 := S8.(writes := Writes([], Some([Admission(Control(1), Unary, 0, 1, 0, true), Admission(X, Unary, 1, 1, 0, false)]), 2, 2, false))
  const S10 := S9.(handshake := Answered(Hello, OK), deliveries := {Delivery(0, 0, 0, 0), Delivery(2, 1, 2, 1)},
    routes := Tables(map[X := Waiting(2, LINE, AwaitingHandshake)], map[], map[], map[], {X}, {}, {}, [], [X, Control(1), X, Control(2)], {0, 1, 3}))
  const S11 := S10.(handshakeState := Ready, handshake := NoHandshake, negotiated := {0, 1},
    routes := Tables(map[X := Waiting(2, LINE, Released(true))], map[], map[], map[], {X}, {}, {}, [], [X, Control(1), X, Control(2)], {0, 1, 3}))
  const S12 := S11.(serials := 4, routes := Tables(map[], map[], map[X := Pending(2, 3, 1, false)], map[], {}, {X}, {}, [], [X, Control(1), X, Control(2)], {0, 1, 3}),
    writes := Writes([Admission(X, Unary, 3, 1, 1, false)], Some([Admission(Control(1), Unary, 0, 1, 0, true), Admission(X, Unary, 1, 1, 0, false)]), 3, 3, false))
  // and this time the line is written
  const S13 := S12.(callerWrites := {1}, writes := Writes([Admission(X, Unary, 3, 1, 1, true)], Some([Admission(Control(1), Unary, 0, 1, 0, true), Admission(X, Unary, 1, 1, 0, false)]), 3, 3, false))
  // now the old hello's callback comes
  const S14 := S13.(writes := Writes([Admission(X, Unary, 3, 1, 1, true)], Some([Admission(X, Unary, 1, 1, 0, false)]), 2, 2, false))
  // the stale line fails, and takes the new route down with it
  const S15 := S14.(writes := Writes([Admission(X, Unary, 3, 1, 1, true)], Some([]), 1, 1, false),
    routes := Tables(map[], map[], map[], map[], {}, {}, {}, [], [X, Control(1), X, Control(2)], {0, 1, 2, 3}))
  const S16 := S15.(routes := Tables(map[X := Waiting(4, LINE, Released(true))], map[], map[], map[], {X}, {}, {}, [], [X, Control(1), X, Control(2), X], {0, 1, 2, 3}))
  // the id is free again, so a third call is admitted under it
  const S17 := S16.(serials := 5, routes := Tables(map[], map[], map[X := Pending(4, 4, 1, false)], map[], {}, {X}, {}, [], [X, Control(1), X, Control(2), X], {0, 1, 2, 3}),
    writes := Writes([Admission(X, Unary, 3, 1, 1, true), Admission(X, Unary, 4, 1, 1, false)], Some([]), 2, 2, false))

  lemma FirstHello(s0: State)
    requires s0 == INITIAL.(routes := Open(NO_ROUTES, Unary, X, LINE))
    ensures EnsureHandshake(CFG, s0) == (S1, Awaited)
  {
    var s1 := Probe(CFG, Spawn(s0), Hello).0;
    assert s1.routes == S1.routes;
    assert s1.writes == S1.writes;
  }

  lemma Step1() ensures Goes(INITIAL, RequestStep(X, LINE), S1) {
    var s0 := INITIAL.(routes := Open(NO_ROUTES, Unary, X, LINE));
    FirstHello(s0);
    assert IsFreeId(INITIAL, X, false);
  }
  lemma Step2() ensures Goes(S1, BeginWriteStep(false), S2) { }
  lemma Step3() ensures Goes(S2, ResponseStep(Control(1), OK, 0), S3) { }
  lemma Step4() ensures Goes(S3, ContinueStep, S4) { }
  lemma Step5() ensures Goes(S4, ResumeStep(X), S5) { }
  lemma Step6() ensures Goes(S5, TerminateStep, S6) {
    assert ActiveWrites(S5.writes)[0].child == 0;
    assert Retire(S5.writes, 0) == S6.writes;
    assert FailAll(S5.routes).settled == S6.routes.settled;
  }
  lemma SecondHello(s0: State)
    requires s0 == S6.(routes := Open(S6.routes, Unary, X, LINE))
    ensures EnsureHandshake(CFG, s0) == (S7, Awaited)
  {
    var s1 := Probe(CFG, Spawn(s0), Hello).0;
    assert s1.routes == S7.routes;
    assert s1.writes == S7.writes;
  }

  lemma Step7() ensures Goes(S6, RequestStep(X, LINE), S7) {
    var s0 := S6.(routes := Open(S6.routes, Unary, X, LINE));
    SecondHello(s0);
    hide EnsureHandshake;
    assert IsFreeId(S6, X, false);
  }
  lemma Step8() ensures Goes(S7, BeginWriteStep(false), S8) { }
  lemma Step9() ensures Goes(S8, EndWriteStep(false, true), S9) { }
  lemma Step10() ensures Goes(S9, ResponseStep(Control(2), OK, 2), S10) { }
  lemma Step11() ensures Goes(S10, ContinueStep, S11) { }
  /** A released request that may be issued is launched and its line queued. */
  lemma Launches(s: State, r: Routes, w: Writes)
    requires X in s.routes.waitingRequests && WaitingOf(s.routes, X) == Waiting(WaitingOf(s.routes, X).call, LINE, Released(true))
    requires CanPromote(CFG, s, X) && s.handshakeState == Ready && CanIssue(s) && HasRoom(s.writes, CFG.writes, LINE.bytes)
    requires Launch(s.routes, X, s.serials, s.child.value, false) == r
    requires Charge(s.writes, Admission(X, Unary, s.serials, LINE.bytes, s.child.value, false)) == w
    ensures Enabled(s, ResumeStep(X))
    ensures Next(CFG, s, ResumeStep(X)) == s.(routes := r, serials := s.serials + 1, writes := w)
  {
    hide CanPromote, Charge, Launch, HasRoom, ClearPending;
    assert X in Launch(s.routes, X, s.serials, s.child.value, false).pendingResponses by {
      LaunchPends(s);
    }
  }

  lemma LaunchPends(s: State)
    requires X in s.routes.waitingRequests && s.child.Some?
    ensures X in Launch(s.routes, X, s.serials, s.child.value, false).pendingResponses
  {
  }

  lemma Step12() ensures Goes(S11, ResumeStep(X), S12) {
    assert Launch(S11.routes, X, 3, 1, false) == S12.routes;
    assert Charge(S11.writes, Admission(X, Unary, 3, LINE.bytes, 1, false)) == S12.writes;
    Launches(S11, S12.routes, S12.writes);
    hide Launch, Charge, Next, Enabled;
  }
  lemma Step13() ensures Goes(S12, BeginWriteStep(false), S13) { }
  lemma Step14() ensures Goes(S13, EndWriteStep(true, true), S14) { }
  lemma Step15() ensures Goes(S14, BeginWriteStep(true), S15) {
    var a := Retired(S14.writes)[0];
    assert !MayStart(S14, a);
    assert Retired(S14.writes)[1..] == [];
    assert Release(S14.writes, true) == S15.writes;
    assert DropPending(S14.routes, X) == S15.routes;
  }
  lemma Step16() ensures Goes(S15, RequestStep(X, LINE), S16) {
    assert Open(S15.routes, Unary, X, LINE).waitingRequests == map[X := Waiting(4, LINE, AwaitingHandshake)];
    assert IsFreeId(S15, X, false) && HasCapacity(CFG, S15, false);
    hide Spawn, Probe, IsFreeId, HasCapacity;
  }
  lemma Step17() ensures Goes(S16, ResumeStep(X), S17) {
    assert Launch(S16.routes, X, 4, 1, false) == S17.routes;
    assert Charge(S16.writes, Admission(X, Unary, 4, LINE.bytes, 1, false)) == S17.writes;
    Launches(S16, S17.routes, S17.writes);
    hide Launch, Charge, Next, Enabled;
  }
}
