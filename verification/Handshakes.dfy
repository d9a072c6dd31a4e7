/**
 What the state of the handshake has to do with what the backend said. `heard` is a
 history the transport does not keep: the answers to its own probes since it last sent a
 hello, each with the child that gave it.
*/
module Handshakes {
  import opened Ledger
  import opened Routes
  import opened Steadiness
  import opened Transport
  import opened TransportInvariant
  import opened TransportTheorems
  import opened Wire
  import opened WriteQueue

  datatype Answer = Answer(child: nat, reply: Reply)

  type Heard = seq<Answer>

  /** A hello begins a new conversation; the answer to a probe is added to it. */
  function Hear(s: State, step: Step, s': State, heard: Heard): Heard {
    if s.handshake.NoHandshake? && !s'.handshake.NoHandshake? then []
    else if IsAnswer(s, step) && s.child.Some? then heard + [Answer(s.child.value, step.reply)]
    else heard
  }

  /** A run with its history. */
  function Listen(cfg: Config, s: State, heard: Heard, steps: seq<Step>): Option<(State, Heard)>
    decreases |steps|
  {
    if steps == [] then Some((s, heard))
    else if !Enabled(s, steps[0]) then None
    else
      var s' := Next(cfg, s, steps[0]);
      Listen(cfg, s', Hear(s, steps[0], s', heard), steps[1..])
  }

  lemma {:induction false} ListenIsRun(cfg: Config, s: State, heard: Heard, steps: seq<Step>)
    ensures Listen(cfg, s, heard, steps).Some? <==> Run(cfg, s, steps).Some?
    ensures Listen(cfg, s, heard, steps).Some? ==> Run(cfg, s, steps) == Some(Listen(cfg, s, heard, steps).value.0)
    decreases |steps|
  {
    hide Next, Enabled;
    if steps != [] && Enabled(s, steps[0]) {
      var s' := Next(cfg, s, steps[0]);
      ListenIsRun(cfg, s', Hear(s, steps[0], s', heard), steps[1..]);
    }
  }

  // ----- what a conversation comes to

  datatype Standing = Undecided | Multiplexed | OneAtATime | OldBackend | Refused

  /** The hello was not understood: both legacy probes must be answered, and both answers
      be compatible. */
  function LegacyStanding(first: Option<Reply>, second: Option<Reply>): Standing {
    if first == None then Undecided
    else if first.value.Failure? then Refused
    else if second == None then Undecided
    else if second.value.Result? && first.value.compatible && second.value.compatible then OldBackend
    else Refused
  }

  function ReplyAt(heard: Heard, i: nat): Option<Reply> {
    if i < |heard| then Some(heard[i].reply) else None
  }

  function StandingOf(heard: Heard): Standing {
    if heard == [] then Undecided
    else
      match heard[0].reply
      case Result(negotiated, multiplexed, _) =>
        if !negotiated then Refused else if multiplexed then Multiplexed else OneAtATime
      case Failure(code) =>
        match code
        case HelloRejected => Refused
        case OtherFailure => Undecided
        case UnknownCommand => LegacyStanding(ReplyAt(heard, 1), ReplyAt(heard, 2))
  }

  /** What the handshake's state says the backend is. */
  predicate Believes(h: HandshakeState, standing: Standing) {
    match h
    case Ready => standing == Multiplexed
    case SingleFlight => standing == OneAtATime
    case Legacy => standing == OldBackend
    case _ => true
  }

  // ----- what every reachable state has heard

  predicate NotUnderstood(heard: Heard) {
    heard != [] && heard[0].reply == Failure(UnknownCommand)
  }

  /** The answers that lead to this probe. */
  predicate LeadsTo(stage: Stage, heard: Heard) {
    match stage
    case Hello => heard == []
    case LegacyVersion => |heard| == 1 && NotUnderstood(heard)
    case LegacyCapabilities(versionOk) =>
      |heard| == 2 && NotUnderstood(heard) && heard[1].reply.Result? && heard[1].reply.compatible == versionOk
  }

  ghost predicate HeardOk(s: State, heard: Heard) {
    && (s.handshake.Probing? ==> LeadsTo(s.handshake.stage, heard))
    && (s.handshake.Answered? ==>
          heard != [] && heard[|heard| - 1].reply == s.handshake.reply && LeadsTo(s.handshake.stage, heard[..|heard| - 1]))
    && (s.child.Some? ==> Believes(s.handshakeState, StandingOf(heard)))
    && (s.child.Some? && (s.handshake.Probing? || s.handshake.Answered? || IsWorking(s.handshakeState)) ==>
          forall i :: 0 <= i < |heard| ==> heard[i].child == s.child.value)
  }

  /** Steps that are none of the handshake's own. */
  lemma StaysHeard(cfg: Config, s: State, s': State, heard: Heard, gone: set<RequestId>)
    requires Steady(cfg, s, s', gone) && HeardOk(s, heard)
    requires (!s.handshake.NoHandshake? ==> s.handshakeState == Unknown) && (s.handshake.Probing? ==> s.child.Some?)
    requires (!s'.handshake.NoHandshake? ==> s'.handshakeState == Unknown) && (s'.handshake.Probing? ==> s'.child.Some?)
    ensures HeardOk(s', if s.handshake.NoHandshake? && !s'.handshake.NoHandshake? then [] else heard)
  {
    StaysWithChild(cfg, s, s', gone);
    NothingHeard();
    hide Kept, StandingOf, LeadsTo;
  }

  lemma SteadyHeard(cfg: Config, s: State, step: Step, heard: Heard)
    requires ValidConfig(cfg) && StateOk(cfg, s) && HeardOk(s, heard) && Enabled(s, step)
    requires !step.ContinueStep? && !IsAnswer(s, step)
    ensures HeardOk(Next(cfg, s, step), Hear(s, step, Next(cfg, s, step), heard))
  {
    hide StateOk, Next, Enabled, Steady, Clears, HeardOk, IsAnswer;
    var s' := Next(cfg, s, step);
    NextSteady(cfg, s, step);
    NextKeeps(cfg, s, step);
    HandshakeFacts(cfg, s);
    HandshakeFacts(cfg, s');
    StaysHeard(cfg, s, s', heard, Clears(s, step));
  }

  lemma NothingHeard()
    ensures LeadsTo(Hello, []) && StandingOf([]) == Undecided
  {
  }

  lemma StaysWithChild(cfg: Config, s: State, s': State, gone: set<RequestId>)
    requires Kept(cfg, s, s', gone)
    ensures s.child.Some? && s'.child.Some? ==> s'.child == s.child
  {
  }

  lemma HandshakeFacts(cfg: Config, s: State)
    requires StateOk(cfg, s)
    ensures !s.handshake.NoHandshake? ==> s.handshakeState == Unknown
    ensures s.handshake.Probing? ==> s.child.Some?
  {
    StateFacts(cfg, s);
  }

  lemma OneMoreHeard(s: State, s': State, reply: Reply, heard: Heard)
    requires HeardOk(s, heard) && s.handshake.Probing? && s.child.Some?
    requires s'.child == s.child && s'.handshakeState == s.handshakeState == Unknown
    requires s'.handshake == Answered(s.handshake.stage, reply)
    ensures HeardOk(s', heard + [Answer(s.child.value, reply)])
  {
    hide StandingOf, LeadsTo;
    assert (heard + [Answer(s.child.value, reply)])[..|heard|] == heard;
  }

  lemma AnswerHeard(cfg: Config, s: State, step: Step, heard: Heard)
    requires ValidConfig(cfg) && StateOk(cfg, s) && HeardOk(s, heard) && Enabled(s, step) && IsAnswer(s, step)
    ensures HeardOk(Next(cfg, s, step), Hear(s, step, Next(cfg, s, step), heard))
  {
    AnswerKept(cfg, s, step);
    HandshakeFacts(cfg, s);
    hide StateOk, Next, Enabled, Kept, HeardOk;
    OneMoreHeard(s, Next(cfg, s, step), step.reply, heard);
  }

  /** What the continuation makes of the answers heard. */
  lemma ContinueIsHeard(cfg: Config, s: State, heard: Heard)
    requires ValidConfig(cfg) && StateOk(cfg, s) && HeardOk(s, heard) && s.handshake.Answered?
    ensures var s' := ContinueHandshake(cfg, s);
      match StandingOf(heard)
      case Multiplexed => s' == Succeed(s, Ready)
      case OneAtATime => s' == Succeed(s, SingleFlight)
      case OldBackend => s' == Succeed(s, Legacy)
      case Refused => s' == Block(s)
      case Undecided =>
        if heard[0].reply == Failure(OtherFailure) then s' == GiveUp(s)
        else if |heard| == 1 then s' == NextProbe(cfg, s, LegacyVersion)
        else |heard| == 2 && heard[1].reply.Result? && s' == NextProbe(cfg, s, LegacyCapabilities(heard[1].reply.compatible))
  {
    hide StateOk, Succeed, Block, GiveUp, NextProbe;
    assert heard[..|heard| - 1] + [heard[|heard| - 1]] == heard;
  }

  predicate IsRecycled(s: State, s': State) {
    s.protocolQuarantined && s'.child.None? && s'.handshakeState == Unknown && s'.handshake.NoHandshake?
  }

  lemma SucceededAs(s: State, h: HandshakeState)
    requires s.child.Some?
    ensures var s' := Succeed(s, h);
      (s'.handshakeState == h && s'.handshake.NoHandshake? && s'.child == s.child) || IsRecycled(s, s')
    ensures !s.protocolQuarantined ==> Succeed(s, h).handshakeState == h
  {
    hide FailAll, Retire, ReleaseWaiters;
  }

  lemma BlockedAs(s: State)
    ensures var s' := Block(s); s'.child.None? && s'.handshake.NoHandshake?
    ensures !Terminate(s).protocolQuarantined ==> Block(s).handshakeState == Blocked
  {
    hide FailAll, Retire;
  }

  lemma GivenUpAs(s: State)
    ensures var s' := GiveUp(s); s'.handshakeState == Unknown && s'.handshake.NoHandshake?
  {
    hide FailAll, Retire, ReleaseWaiters;
  }

  lemma NothingSpawned(cfg: Config, s: State)
    requires ValidConfig(cfg) && StateOk(cfg, s) && s.child.None? && s.handshake.Answered?
    ensures ContinueHandshake(cfg, s).child.None? && !ContinueHandshake(cfg, s).handshake.Probing?
    ensures !ContinueHandshake(cfg, s).handshake.Answered?
  {
    assert s.closed;
    ProbeStarts(cfg, s, LegacyVersion);
    ProbeStarts(cfg, s, LegacyCapabilities(true));
    ProbeStarts(cfg, s, LegacyCapabilities(false));
    hide StateOk, Probe, FailAll, Retire, ReleaseWaiters;
  }

  lemma ContinueHeard(cfg: Config, s: State, heard: Heard)
    requires ValidConfig(cfg) && StateOk(cfg, s) && HeardOk(s, heard) && Enabled(s, ContinueStep)
    ensures HeardOk(Next(cfg, s, ContinueStep), Hear(s, ContinueStep, Next(cfg, s, ContinueStep), heard))
  {
    BlockedAs(s);
    GivenUpAs(s);
    if s.handshake.Answered? {
      if s.child.None? {
        NothingSpawned(cfg, s);
        hide StateOk, ContinueHandshake, StandingOf, LeadsTo;
      } else {
        AnsweredHeard(cfg, s, heard);
        hide StateOk, ContinueHandshake, HeardOk;
      }
    } else {
      hide StateOk, Block, GiveUp, StandingOf, LeadsTo;
    }
  }

  lemma AnsweredHeard(cfg: Config, s: State, heard: Heard)
    requires ValidConfig(cfg) && StateOk(cfg, s) && HeardOk(s, heard) && s.handshake.Answered? && s.child.Some?
    ensures HeardOk(ContinueHandshake(cfg, s), heard)
  {
    ContinueKept(cfg, s);
    StaysWithChild(cfg, s, ContinueHandshake(cfg, s), {});
    OutcomeIs(cfg, s, heard);
    OutcomeHeard(s, ContinueHandshake(cfg, s), heard);
  }

  /** How the continuation ends, by what was heard. */
  predicate IsOutcome(s: State, s': State, heard: Heard)
    requires heard != []
  {
    match StandingOf(heard)
    case Multiplexed => (s'.handshakeState == Ready && s'.handshake.NoHandshake?) || IsRecycled(s, s')
    case OneAtATime => (s'.handshakeState == SingleFlight && s'.handshake.NoHandshake?) || IsRecycled(s, s')
    case OldBackend => (s'.handshakeState == Legacy && s'.handshake.NoHandshake?) || IsRecycled(s, s')
    case Refused => s'.handshakeState == Blocked && s'.handshake.NoHandshake? && s'.child.None?
    case Undecided =>
      && s'.handshakeState == Unknown
      && (if heard[0].reply == Failure(OtherFailure) || s.protocolQuarantined then s'.handshake.NoHandshake?
          else s'.handshake.Broken? || (s'.handshake.Probing? && LeadsTo(s'.handshake.stage, heard)))
  }

  lemma OutcomeIs(cfg: Config, s: State, heard: Heard)
    requires ValidConfig(cfg) && StateOk(cfg, s) && HeardOk(s, heard) && s.handshake.Answered? && s.child.Some?
    ensures IsOutcome(s, ContinueHandshake(cfg, s), heard)
  {
    assert !s.closed;
    ContinueIsHeard(cfg, s, heard);
    hide ContinueHandshake, Succeed, Block, GiveUp, NextProbe, Terminate;
    BlockKeeps(cfg, s);
    BlockedAs(s);
    GivenUpAs(s);
    SucceededAs(s, Ready);
    SucceededAs(s, SingleFlight);
    SucceededAs(s, Legacy);
    if StandingOf(heard) == Undecided {
      NextStage(cfg, s, heard);
    }
    hide StateOk, HeardOk, StandingOf, LeadsTo;
  }

  lemma NextStage(cfg: Config, s: State, heard: Heard)
    requires ValidConfig(cfg) && StateOk(cfg, s) && HeardOk(s, heard) && s.handshake.Answered? && s.child.Some?
    requires StandingOf(heard) == Undecided
    ensures IsOutcome(s, ContinueHandshake(cfg, s), heard)
  {
    assert !s.closed;
    ContinueIsHeard(cfg, s, heard);
    GivenUpAs(s);
    hide StateOk, HeardOk, ContinueHandshake, GiveUp, NextProbe;
    if heard[0].reply == Failure(OtherFailure) {
    } else if |heard| == 1 {
      NextProbeKept(cfg, s, LegacyVersion);
    } else {
      NextProbeKept(cfg, s, LegacyCapabilities(heard[1].reply.compatible));
    }
  }

  lemma OutcomeHeard(s: State, s': State, heard: Heard)
    requires HeardOk(s, heard) && s.handshake.Answered? && s.child.Some? && IsOutcome(s, s', heard)
    requires s'.child.Some? ==> s'.child == s.child
    ensures HeardOk(s', heard)
  {
    hide StandingOf, LeadsTo;
  }

  lemma NextHeard(cfg: Config, s: State, step: Step, heard: Heard)
    requires ValidConfig(cfg) && StateOk(cfg, s) && HeardOk(s, heard) && Enabled(s, step)
    ensures HeardOk(Next(cfg, s, step), Hear(s, step, Next(cfg, s, step), heard))
  {
    hide StateOk, HeardOk, Next, Enabled, Hear, IsAnswer;
    if step.ContinueStep? {
      ContinueHeard(cfg, s, heard);
    } else if IsAnswer(s, step) {
      AnswerHeard(cfg, s, step, heard);
    } else {
      SteadyHeard(cfg, s, step, heard);
    }
  }

  lemma {:induction false} ListenKeeps(cfg: Config, s: State, heard: Heard, steps: seq<Step>)
    requires ValidConfig(cfg) && StateOk(cfg, s) && HeardOk(s, heard)
    ensures Listen(cfg, s, heard, steps).Some? ==>
      var (s', heard') := Listen(cfg, s, heard, steps).value; StateOk(cfg, s') && HeardOk(s', heard')
    decreases |steps|
  {
    hide StateOk, HeardOk, Next, Enabled, Hear;
    if steps != [] && Enabled(s, steps[0]) {
      var s' := Next(cfg, s, steps[0]);
      NextKeeps(cfg, s, steps[0]);
      NextHeard(cfg, s, steps[0], heard);
      ListenKeeps(cfg, s', Hear(s, steps[0], s', heard), steps[1..]);
    }
  }

  // ----- the claims

  ghost predicate Hears(cfg: Config, steps: seq<Step>, s: State, heard: Heard) {
    ValidConfig(cfg) && Listen(cfg, INITIAL, [], steps) == Some((s, heard))
  }

  lemma HearsOk(cfg: Config, steps: seq<Step>, s: State, heard: Heard)
    requires Hears(cfg, steps, s, heard)
    ensures StateOk(cfg, s) && HeardOk(s, heard) && Reaches(cfg, steps, s)
  {
    InitialOk(cfg);
    assert HeardOk(INITIAL, []);
    hide StateOk, HeardOk, Listen, Run;
    ListenKeeps(cfg, INITIAL, [], steps);
    ListenIsRun(cfg, INITIAL, [], steps);
  }

  /** As long as the child lives, what the handshake's state says of it is what that very
      child answered: ready means that it accepted the hello and offered multiplexing,
      single-flight that it accepted without, and legacy that it did not know the hello and
      answered both probes compatibly. */
  lemma HandshakeIsWhatItHeard(cfg: Config, steps: seq<Step>, s: State, heard: Heard)
    requires Hears(cfg, steps, s, heard) && s.child.Some? && IsWorking(s.handshakeState)
    ensures Believes(s.handshakeState, StandingOf(heard))
    ensures forall i :: 0 <= i < |heard| ==> heard[i].child == s.child.value
  {
    HearsOk(cfg, steps, s, heard);
  }

  /** A child that has not itself accepted the hello with multiplexing never has two callers
      pending. */
  lemma UnlessMultiplexedOneCaller(cfg: Config, steps: seq<Step>, s: State, heard: Heard, x: RequestId, y: RequestId)
    requires Hears(cfg, steps, s, heard) && (s.child.Some? ==> StandingOf(heard) != Multiplexed)
    requires x.Caller? && IsPending(s.routes, x) && y.Caller? && IsPending(s.routes, y)
    ensures x == y
  {
    HearsOk(cfg, steps, s, heard);
    PendingFacts(s, x);
    hide Reaches, StandingOf, ViewOf;
    SingleFlightIsExclusive(cfg, steps, s, x, y);
  }

  /** And the other way round: once an answer is in, the continuation brings about what the
      answers come to: it works with the backend accordingly, blocks, gives up, or asks the
      next probe. Only a quarantine that has meanwhile lost its callers recycles instead. */
  lemma OutcomeIsWhatItHeard(cfg: Config, steps: seq<Step>, s: State, heard: Heard)
    requires Hears(cfg, steps, s, heard) && s.handshake.Answered? && s.child.Some?
    ensures heard != [] && IsOutcome(s, ContinueHandshake(cfg, s), heard)
    ensures !s.protocolQuarantined ==> var h := ContinueHandshake(cfg, s).handshakeState;
      && (StandingOf(heard) == Multiplexed <==> h == Ready)
      && (StandingOf(heard) == OneAtATime <==> h == SingleFlight)
      && (StandingOf(heard) == OldBackend <==> h == Legacy)
      && (StandingOf(heard) == Refused <==> h == Blocked)
  {
    HearsOk(cfg, steps, s, heard);
    OutcomeIs(cfg, s, heard);
    hide StateOk, ContinueHandshake, Hears, StandingOf;
  }
}
