/**
 What the transport does about frames it did not ask for, and what it keeps away from a
 child meanwhile.
*/
module Quarantining {
  import opened OneAtATime
  import opened Routes
  import opened Steadiness
  import opened Transport
  import opened TransportInvariant
  import opened TransportTheorems
  import opened Wire
  import opened WriteQueue

  // ----- over every run

  lemma ProperStep(cfg: Config, s: State, step: Step)
    requires ValidConfig(cfg) && StateOk(cfg, s) && Enabled(s, step) && Proper(cfg, s.writes, s.routes.calls)
    ensures var s' := Next(cfg, s, step); Proper(cfg, s'.writes, s'.routes.calls)
  {
    hide StateOk, Next, Enabled, Clears, CallersStay, Proper;
    if step.ContinueStep? {
      IsContinue(cfg, s, step);
      ContinueKept(cfg, s);
    } else if IsAnswer(s, step) {
      AnswerKept(cfg, s, step);
    } else {
      NextSteady(cfg, s, step);
    }
  }

  lemma {:induction false} ProperRun(cfg: Config, s: State, steps: seq<Step>)
    requires ValidConfig(cfg) && StateOk(cfg, s) && Proper(cfg, s.writes, s.routes.calls)
    ensures Run(cfg, s, steps).Some? ==>
      var s' := Run(cfg, s, steps).value; Proper(cfg, s'.writes, s'.routes.calls)
    decreases |steps|
  {
    hide StateOk, Next, Enabled, Proper;
    if steps != [] && Enabled(s, steps[0]) {
      NextKeeps(cfg, s, steps[0]);
      ProperStep(cfg, s, steps[0]);
      ProperRun(cfg, Next(cfg, s, steps[0]), steps[1..]);
    }
  }

  /** No line longer than a frame may be is ever queued, and no call is ever admitted under
      an id that is not valid. */
  lemma NothingImproper(cfg: Config, steps: seq<Step>, s: State)
    requires Reaches(cfg, steps, s)
    ensures forall a :: a in ActiveWrites(s.writes) ==> a.bytes <= cfg.frameLimitBytes
    ensures forall c :: 0 <= c < |s.routes.calls| ==> IsValidId(s.routes.calls[c])
  {
    hide StateOk, Run, IsValidId, ValidConfig;
    assert Proper(cfg, INITIAL.writes, INITIAL.routes.calls) && ActiveWrites(INITIAL.writes) == [];
    InitialOk(cfg);
    hide Proper;
    ProperRun(cfg, INITIAL, steps);
    ProperMeans(cfg, s.writes, s.routes.calls);
  }

  lemma ProperMeans(cfg: Config, w: Writes, calls: seq<RequestId>)
    requires Proper(cfg, w, calls)
    ensures forall a :: a in ActiveWrites(w) ==> a.bytes <= cfg.frameLimitBytes
    ensures forall c :: 0 <= c < |calls| ==> IsValidId(calls[c])
  {
  }

  /** While it is quarantined, and as long as its child stays, no caller becomes pending and
      no caller's line is handed to the child. */
  lemma QuarantineIsQuiet(cfg: Config, steps: seq<Step>, s: State, step: Step)
    requires Reaches(cfg, steps, s) && s.protocolQuarantined && s.child.Some? && Enabled(s, step)
    requires Next(cfg, s, step).child == s.child
    ensures forall id: RequestId :: id.Caller? && IsPending(Next(cfg, s, step).routes, id) ==>
      SameRoute(s.routes, Next(cfg, s, step).routes, id)
    ensures Handed(s, step) == {}
  {
    ReachableOk(cfg, steps, s);
    NextCallersStay(cfg, s, step);
    hide StateOk, Next, Clears, Reaches;
  }

  // ----- frames that were not asked for

  /** The id of a frame that belongs to nothing: no pending route, no tombstone. */
  predicate IsUnknown(s: State, step: Step) {
    (step.ResponseStep? || step.EventStep?) && !IsPending(s.routes, step.id) && step.id !in s.tombstones
  }

  lemma UnknownIsQuarantine(cfg: Config, s: State, step: Step)
    requires Enabled(s, step) && IsUnknown(s, step)
    ensures Next(cfg, s, step) == Quarantine(cfg, s, step.id)
  {
    hide Quarantine, ClearPending, Terminate;
  }


  lemma TerminatedAlike(s: State, id: RequestId)
    requires s.child.Some?
    ensures Terminate(s.(quarantinedRequestIds := s.quarantinedRequestIds + {id}, protocolQuarantined := false)) == Terminate(s)
  {
    hide FailAll, Retire;
  }

  lemma QuarantineIs(cfg: Config, s: State, id: RequestId)
    requires s.child.Some? && id !in s.quarantinedRequestIds
    ensures var q := s.quarantinedRequestIds;
      Quarantine(cfg, s, id) ==
        if |q| >= cfg.quarantineLimit || (s.handshake.NoHandshake? && NoCallers(s.routes)) then Terminate(s)
        else s.(quarantinedRequestIds := q + {id}, protocolQuarantined := true)
  {
    TerminatedAlike(s, id);
    hide Terminate, NoCallers;
  }

  /** A frame that belongs to nothing quarantines the transport and spares whoever is there;
      a child nobody is using, and one that does so for too many ids, is taken down. */
  lemma UnknownFrame(cfg: Config, steps: seq<Step>, s: State, step: Step)
    requires Reaches(cfg, steps, s) && Enabled(s, step) && IsUnknown(s, step)
    ensures var s', q := Next(cfg, s, step), s.quarantinedRequestIds;
      if step.id in q then s' == s
      else if |q| >= cfg.quarantineLimit || (s.handshake.NoHandshake? && NoCallers(s.routes)) then EveryoneSettled(s, s')
      else s' == s.(quarantinedRequestIds := q + {step.id}, protocolQuarantined := true)
  {
    ReachableOk(cfg, steps, s);
    UnknownIsQuarantine(cfg, s, step);
    TerminateSettles(s);
    if step.id !in s.quarantinedRequestIds {
      QuarantineIs(cfg, s, step.id);
      hide Quarantine;
    }
    hide StateOk, Next, Terminate, NoCallers, EveryoneSettled, Reaches;
  }

  /** The last route to be cleared takes a quarantined child with it. */
  lemma LastOneRecycles(cfg: Config, s: State, id: RequestId, tombstone: bool, after: Handshake)
    requires IsPending(s.routes, id)
    ensures var s' := ClearPending(cfg, s, id, tombstone, after);
      s'.protocolQuarantined ==> !s'.handshake.NoHandshake? || !NoCallers(s'.routes)
  {
    hide FailAll, Retire, DropPending, NoCallers;
  }

  /** A frame of the wrong kind: a response for a stream, an event for a request, be it
      pending or only remembered. */
  predicate IsWrongKind(s: State, step: Step) {
    match step
    case ResponseStep(id, _, _) =>
      if IsPending(s.routes, id) then id in s.routes.pendingStreams else id in s.tombstones && s.tombstones[id].kind == Stream
    case EventStep(id, _, _, _) =>
      if IsPending(s.routes, id) then id in s.routes.pendingResponses else id in s.tombstones && s.tombstones[id].kind == Unary
    case _ => false
  }

  lemma WrongKindTerminates(cfg: Config, s: State, step: Step)
    requires Enabled(s, step) && IsWrongKind(s, step)
    requires !(step.id in s.routes.pendingResponses && step.id in s.routes.pendingStreams)
    ensures Next(cfg, s, step) == Terminate(s)
  {
    hide Quarantine, ClearPending, Terminate;
  }

  /** It takes the child down, and everyone with it. */
  lemma WrongKindTakesDown(cfg: Config, steps: seq<Step>, s: State, step: Step)
    requires Reaches(cfg, steps, s) && Enabled(s, step) && IsWrongKind(s, step)
    ensures EveryoneSettled(s, Next(cfg, s, step))
  {
    ReachableOk(cfg, steps, s);
    KindsAreDisjoint(cfg, s);
    TerminateSettles(s);
    WrongKindTerminates(cfg, s, step);
    hide StateOk, Next, Terminate, EveryoneSettled, Reaches;
  }
}
