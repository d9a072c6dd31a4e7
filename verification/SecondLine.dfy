/**
 A run in which a backend that serves one call at a time is handed a second line while it
 is at work on the first: the first caller cancels after its line has been written.
*/
module SecondLine {
  import opened Handshakes
  import opened Ledger
  import opened OneAtATime
  import opened Routes
  import opened StaleWrites
  import opened Transport
  import opened Wire
  import opened WriteQueue

  const Y := Caller("y")
  const ONE_AT_A_TIME := Result(true, false, true)

  // the hello is accepted without multiplexing
  const U3 := S2.(handshake := Answered(Hello, ONE_AT_A_TIME), deliveries := {Delivery(0, 0, 0, 0)},
    routes := Tables(map[X := Waiting(0, LINE, AwaitingHandshake)], map[], map[], map[], {X}, {}, {}, [], [X, Control(1)], {1}))
  const U4 := U3.(handshakeState := SingleFlight, handshake := NoHandshake, negotiated := {0},
    routes := Tables(map[X := Waiting(0, LINE, Released(true))], map[], map[], map[], {X}, {}, {}, [], [X, Control(1)], {1}))
  // the first call takes the slot
  const U5 := U4.(routes := Tables(map[X := Waiting(0, LINE, AwaitingSlot)], map[], map[], map[], {}, {X}, {}, [0], [X, Control(1)], {1}))
  const U6 := U5.(writes := NO_WRITES)
  const U7 := U6.(serials := 2, routes := Tables(map[], map[], map[X := Pending(0, 1, 0, true)], map[], {}, {X}, {}, [0], [X, Control(1)], {1}),
    writes := Writes([Admission(X, Unary, 1, 1, 0, false)], None, 1, 1, false))
  // its line is written, and the callback comes
  const U8 := U7.(callerWrites := {0}, writes := Writes([Admission(X, Unary, 1, 1, 0, true)], None, 1, 1, false))
  const U9 := U8.(writes := NO_WRITES)
  // now it is cancelled: no write is under way, so the child stays
  const U10 := U9.(tombstones := map[X := Tombstone(Unary, 1)],
    routes := Tables(map[], map[], map[], map[], {}, {}, {}, [], [X, Control(1)], {0, 1}))
  // the second call takes the slot
  const U11 := U10.(routes := Tables(map[Y := Waiting(2, LINE, Released(true))], map[], map[], map[], {Y}, {}, {}, [], [X, Control(1), Y], {0, 1}))
  const U12 := U11.(routes := Tables(map[Y := Waiting(2, LINE, AwaitingSlot)], map[], map[], map[], {}, {Y}, {}, [2], [X, Control(1), Y], {0, 1}))
  const U13 := U12.(serials := 3, routes := Tables(map[], map[], map[Y := Pending(2, 2, 0, true)], map[], {}, {Y}, {}, [2], [X, Control(1), Y], {0, 1}),
    writes := Writes([Admission(Y, Unary, 2, 1, 0, false)], None, 1, 1, false))
  // and its line is written, too
  const U14 := U13.(writes := Writes([Admission(Y, Unary, 2, 1, 0, true)], None, 1, 1, false))

  lemma To3() ensures Goes(S2, ResponseStep(Control(1), ONE_AT_A_TIME, 0), U3) { }
  lemma To4() ensures Goes(U3, ContinueStep, U4) { }
  lemma To5() ensures Goes(U4, ResumeStep(X), U5) {
    assert AcquireSlot(U4.routes, X) == U5.routes;
    hide Issue, DropWaiting, AcquireSlot;
  }
  lemma To6() ensures Goes(U5, EndWriteStep(false, true), U6) { }

  /** A granted request that may be issued is launched with the slot and its line queued. */
  lemma Grants(s: State, id: RequestId, r: Routes, w: Writes)
    requires s.routes.slots != [] && SlotWanted(s.routes) && !SlotHeld(s.routes) && s.routes.calls[s.routes.slots[0]] == id
    requires id in s.routes.waitingRequests && s.routes.waitingRequests[id].line == LINE
    requires CanIssue(s) && HasRoom(s.writes, CFG.writes, LINE.bytes)
    requires Launch(s.routes, id, s.serials, s.child.value, true) == r && id in r.pendingResponses
    requires Charge(s.writes, Admission(id, Unary, s.serials, LINE.bytes, s.child.value, false)) == w
    ensures Goes(s, GrantStep, s.(routes := r, serials := s.serials + 1, writes := w))
  {
    hide Charge, Launch, HasRoom, ClearPending, SlotWanted, SlotHeld, CanPromote;
  }

  lemma To7() ensures Goes(U6, GrantStep, U7) {
    assert Launch(U6.routes, X, 1, 0, true) == U7.routes;
    assert Charge(U6.writes, Admission(X, Unary, 1, LINE.bytes, 0, false)) == U7.writes;
    assert SlotWanted(U6.routes) && !SlotHeld(U6.routes);
    Grants(U6, X, U7.routes, U7.writes);
    hide Launch, Charge, Goes;
  }
  lemma To8() ensures Goes(U7, BeginWriteStep(false), U8) { }
  lemma To9() ensures Goes(U8, EndWriteStep(false, true), U9) { }
  lemma To10() ensures Goes(U9, CancelStep(X, false), U10) {
    assert DropPending(U9.routes, X) == U10.routes;
    assert !HasStartedWrite(U9, X);
    hide FailAll, Retire, DropWaiting, DropPending, HasStartedWrite;
  }
  lemma To11() ensures Goes(U10, RequestStep(Y, LINE), U11) {
    assert Open(U10.routes, Unary, Y, LINE).waitingRequests == map[Y := Waiting(2, LINE, AwaitingHandshake)];
    assert IsFreeId(U10, Y, false) && HasCapacity(CFG, U10, false);
    hide Spawn, Probe, IsFreeId, HasCapacity;
  }
  lemma To12() ensures Goes(U11, ResumeStep(Y), U12) {
    assert AcquireSlot(U11.routes, Y) == U12.routes;
    hide Issue, DropWaiting, AcquireSlot;
  }
  lemma To13() ensures Goes(U12, GrantStep, U13) {
    assert Launch(U12.routes, Y, 2, 0, true) == U13.routes;
    assert Charge(U12.writes, Admission(Y, Unary, 2, LINE.bytes, 0, false)) == U13.writes;
    assert SlotWanted(U12.routes) && !SlotHeld(U12.routes);
    Grants(U12, Y, U13.routes, U13.writes);
    hide Launch, Charge, Goes;
  }
  lemma To14() ensures Goes(U13, BeginWriteStep(false), U14) { }

  // ----- the run

  const STEPS: seq<Step> := [
    RequestStep(X, LINE), BeginWriteStep(false), ResponseStep(Control(1), ONE_AT_A_TIME, 0), ContinueStep,
    ResumeStep(X), EndWriteStep(false, true), GrantStep, BeginWriteStep(false), EndWriteStep(false, true),
    CancelStep(X, false),
    RequestStep(Y, LINE), ResumeStep(Y), GrantStep, BeginWriteStep(false)]

  function At(k: nat): State {
    match k
    case 0 => INITIAL
    case 1 => S1
    case 2 => S2
    case 3 => U3
    case 4 => U4
    case 5 => U5
    case 6 => U6
    case 7 => U7
    case 8 => U8
    case 9 => U9
    case 10 => U10
    case 11 => U11
    case 12 => U12
    case 13 => U13
    case _ => U14
  }

  function HandAt(k: nat): InHand {
    if k < 8 then {} else if k < 14 then {1} else {1, 2}
  }

  function HeardAt(k: nat): Heard {
    if k < 3 then [] else [Answer(0, ONE_AT_A_TIME)]
  }

  lemma EachGoes(k: nat)
    requires k < 14
    ensures Goes(At(k), STEPS[k], At(k + 1))
  {
    hide Goes;
    if k < 7 {
      FirstHalf(k);
    } else {
      SecondHalf(k);
    }
  }

  lemma FirstHalf(k: nat)
    requires k < 7
    ensures Goes(At(k), STEPS[k], At(k + 1))
  {
    hide Goes;
    match k
    case 0 => Step1();
    case 1 => Step2();
    case 2 => To3();
    case 3 => To4();
    case 4 => To5();
    case 5 => To6();
    case 6 => To7();
  }

  lemma SecondHalf(k: nat)
    requires 7 <= k < 14
    ensures Goes(At(k), STEPS[k], At(k + 1))
  {
    hide Goes;
    match k
    case 7 => To8();
    case 8 => To9();
    case 9 => To10();
    case 10 => To11();
    case 11 => To12();
    case 12 => To13();
    case 13 => To14();
  }

  lemma EachHands(k: nat)
    requires k < 14 && Enabled(At(k), STEPS[k])
    ensures HandAt(k) + Handed(At(k), STEPS[k]) - AnsweredBy(At(k), STEPS[k]) == HandAt(k + 1)
  {
  }

  lemma EachHears(k: nat)
    requires k < 14
    ensures Hear(At(k), STEPS[k], At(k + 1), HeardAt(k)) == HeardAt(k + 1)
  {
  }

  lemma {:induction false} FromHere(k: nat)
    requires k <= 14
    ensures Watch(CFG, At(k), HandAt(k), STEPS[k..]) == Some((U14, {1, 2}))
    ensures Listen(CFG, At(k), HeardAt(k), STEPS[k..]) == Some((U14, [Answer(0, ONE_AT_A_TIME)]))
    decreases 14 - k
  {
    hide Next, Enabled, Handed, AnsweredBy, Hear;
    if k < 14 {
      EachGoes(k);
      EachHands(k);
      EachHears(k);
      assert At(k).child == At(k + 1).child || k == 0;
      FromHere(k + 1);
      assert STEPS[k..][1..] == STEPS[k + 1..];
    }
  }

  /** The child has accepted the hello without multiplexing, and no more than that; its
      answers to the lines of both calls are still due. */
  lemma SecondLineIsWritten()
    ensures Watches(CFG, STEPS, U14, {1, 2}) && U14.child == Some(0)
    ensures Hears(CFG, STEPS, U14, [Answer(0, ONE_AT_A_TIME)]) && StandingOf([Answer(0, ONE_AT_A_TIME)]) == OneAtATime
  {
    hide Watch, Listen;
    FromHere(0);
    assert STEPS[0..] == STEPS;
  }
}
