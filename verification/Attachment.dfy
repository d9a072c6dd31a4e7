/**
 `attachFiles` against an arbitrary browser: up to five ways to hand the files over, one
 deadline for all of them, and at most one hand-off. The browser is an oracle: what it
 answers may depend on everything done so far, in any way.
*/
module Attachment {
  import opened Evidence
  import opened Wire

  /** What the error handlers look for in an error: its class, and patterns in its message. */
  datatype Fault = Fault(deadline: bool, permission: bool, transport: bool, path: bool)

  const DEADLINE := Fault(true, false, false, false)
  const PLAIN := Fault(false, false, false, false)

  datatype Outcome = Fine | Threw(fault: Fault)

  datatype Attempt = VisibleInput | MenuItem | GenericButton | CdpChooser | DirectInput

  /** What is done to the browser; `Begin` marks where a way to hand the files over is taken up. */
  datatype Action = Probe | Click | AwaitChooser | Validate | HandOff | Look | Settle(ms: nat) | Begin(attempt: Attempt)

  type Log = seq<Action>

  datatype View = View(supported: bool, entries: seq<Entry>, labels: seq<string>, processing: bool)

  /** The composer before anything is tried: whether the baseline can be read off it, the
      files in its input, and its labels as they are written. */
  datatype Page = Page(readable: bool, entries: seq<Entry>, labels: seq<string>)

  datatype World = World(
    answer: Log -> Outcome,        // how the last operation of the log ended
    holds: Log -> bool,            // the yes-or-no facts the code asks about
    before: Log -> Page,
    view: Log -> Option<View>,     // what a readiness inspection shows, if it can be made
    now: Log -> nat,
    deadline: nat)

  /** The clock does not run backwards, and a pause takes as long as it takes. */
  ghost predicate ClockRuns(w: World) {
    forall log: Log, a: Action :: w.now(log + [a]) >= w.now(log) + if a.Settle? then a.ms else 0
  }

  function HandOffs(log: Log): nat {
    if log == [] then 0 else HandOffs(log[..|log| - 1]) + if log[|log| - 1] == HandOff then 1 else 0
  }

  predicate IsMark(a: Action) {
    a == HandOff || a.Begin?
  }

  /** The ways taken up and the hand-offs, in the order of the log. */
  function Marks(log: Log): Log {
    if log == [] then []
    else Marks(log[..|log| - 1]) + if IsMark(log[|log| - 1]) then [log[|log| - 1]] else []
  }

  lemma MarksGrow(log: Log, a: Action)
    ensures Marks(log + [a]) == Marks(log) + if IsMark(a) then [a] else []
    ensures HandOffs(log + [a]) == HandOffs(log) + if a == HandOff then 1 else 0
  {
    assert (log + [a])[..|log|] == log;
  }

  lemma {:induction false} MarksCount(log: Log)
    ensures HandOffs(Marks(log)) == HandOffs(log)
  {
    if log == [] {
    } else {
      var rest, last := log[..|log| - 1], log[|log| - 1];
      MarksCount(rest);
      if IsMark(last) {
        MarksGrow(Marks(rest), last);
      } else {
        assert Marks(log) == Marks(rest);
      }
    }
  }

  /** The order in which ways to hand the files over are tried. */
  function Plan(hasInput: bool, cdpAuthorized: bool): seq<Attempt> {
    (if hasInput then [VisibleInput] else []) + [MenuItem, GenericButton]
    + (if cdpAuthorized then [CdpChooser] else []) + (if hasInput then [DirectInput] else [])
  }

  /** How roundabout a way is: from the input that is in sight to the one that is only set. */
  function Rank(a: Attempt): nat {
    match a
    case VisibleInput => 0
    case MenuItem => 1
    case GenericButton => 2
    case CdpChooser => 3
    case DirectInput => 4
  }

  /** Each way at most once, the less roundabout before the more, and exactly those that can
      be tried: an input must be there, and the debugger authorized. */
  lemma PlanIsOrdered(hasInput: bool, cdpAuthorized: bool)
    ensures var plan := Plan(hasInput, cdpAuthorized);
      && (forall i, j :: 0 <= i < j < |plan| ==> Rank(plan[i]) < Rank(plan[j]))
      && (forall a :: a in plan <==> (a == VisibleInput || a == DirectInput ==> hasInput) && (a == CdpChooser ==> cdpAuthorized))
  {
    if hasInput && cdpAuthorized {
      assert Plan(true, true) == [VisibleInput, MenuItem, GenericButton, CdpChooser, DirectInput];
    } else if hasInput {
      assert Plan(true, false) == [VisibleInput, MenuItem, GenericButton, DirectInput];
    } else if cdpAuthorized {
      assert Plan(false, true) == [MenuItem, GenericButton, CdpChooser];
    } else {
      assert Plan(false, false) == [MenuItem, GenericButton];
    }
  }

  function Begun(attempts: seq<Attempt>): Log {
    if attempts == [] then [] else Begun(attempts[..|attempts| - 1]) + [Begin(attempts[|attempts| - 1])]
  }

  lemma BegunGrows(plan: seq<Attempt>, i: nat)
    requires i < |plan|
    ensures Begun(plan[..i + 1]) == Begun(plan[..i]) + [Begin(plan[i])]
  {
    assert plan[..i + 1][..i] == plan[..i];
  }

  lemma {:induction false} BegunHandsNothing(attempts: seq<Attempt>)
    ensures HandOffs(Begun(attempts)) == 0
  {
    if attempts == [] {
    } else {
      var rest := attempts[..|attempts| - 1];
      BegunHandsNothing(rest);
      MarksGrow(Begun(rest), Begin(attempts[|attempts| - 1]));
    }
  }

  /** The log of a cascade: the first `tried` ways of the plan in its order, and after the
      last of them perhaps the one hand-off. */
  predicate IsCascade(log: Log, plan: seq<Attempt>, tried: nat, handed: bool) {
    && tried <= |plan| && (handed ==> tried > 0)
    && Marks(log) == Begun(plan[..tried]) + if handed then [HandOff] else []
  }

  lemma CascadeHandsOnce(log: Log, plan: seq<Attempt>, tried: nat, handed: bool)
    requires IsCascade(log, plan, tried, handed)
    ensures HandOffs(log) == if handed then 1 else 0
  {
    MarksCount(log);
    BegunHandsNothing(plan[..tried]);
    MarksGrow(Begun(plan[..tried]), HandOff);
    assert !handed ==> Marks(log) == Begun(plan[..tried]);
  }

  lemma NothingTried(log: Log, plan: seq<Attempt>)
    requires Marks(log) == []
    ensures IsCascade(log, plan, 0, false) && HandOffs(log) == 0
  {
    CascadeHandsOnce(log, plan, 0, false);
  }

  /** Whether an operation begun at the end of this log is carried out. */
  predicate Succeeds(w: World, log: Log, a: Action) {
    w.now(log) < w.deadline && w.answer(log + [a]).Fine?
  }

  /** `resolveUniqueActiveComposerFileInput`. */
  predicate HasInput(w: World, log: Log) {
    Succeeds(w, log, Probe) && w.holds(log + [Probe])
  }

  /** What has been done when the upload begins: the page was verified, and the baseline
      looked for if there was time. */
  function Prepared(w: World): Log {
    if w.now([Probe]) < w.deadline then [Probe, Probe] else [Probe]
  }

  function PlanOf(w: World): seq<Attempt> {
    Plan(HasInput(w, Prepared(w)), w.holds(Prepared(w)))
  }

  const UNSUPPORTED := Baseline(false, [], [])

  /** The page as it was when the baseline was due: the second thing the run does. */
  function PageBefore(w: World): Page {
    w.before([Probe, Probe])
  }

  /** What a faithful baseline of it would hold. */
  function AsItWas(page: Page): Baseline {
    Baseline(true, page.entries, page.labels)
  }

  /** The baseline was read: the look was in time, did not fail, and could tell. */
  predicate WasRead(w: World) {
    Succeeds(w, [Probe], Probe) && PageBefore(w).readable
  }

  /** What the run keeps of the page: its labels squeezed, or, if it was not read, nothing. */
  function BaselineOf(w: World): Baseline {
    if WasRead(w) then Baseline(true, PageBefore(w).entries, Recorded(PageBefore(w).labels)) else UNSUPPORTED
  }

  /** When the baseline judges as the page itself would. */
  predicate BaselineIsFair(w: World) {
    if WasRead(w) then AllSqueezed(PageBefore(w).labels) else PageBefore(w).entries == []
  }

  lemma FairShows(w: World, entries: seq<Entry>, labels: seq<string>, expected: Entry, p: Proof)
    requires BaselineIsFair(w) && Shows(entries, labels, BaselineOf(w), expected, p)
    ensures Shows(entries, labels, AsItWas(PageBefore(w)), expected, p)
  {
    if WasRead(w) {
      SqueezedAreRecorded(PageBefore(w).labels);
    }
  }

  /** Evidence of a new entry of the given name and size. */
  lemma EntryShows(entries: seq<Entry>, labels: seq<string>, baseline: Baseline, i: nat)
    requires i < |entries|
    ensures Shows(entries, labels, baseline, entries[i], InputEntry(i)) <==> i in NewIndices(entries, baseline.entries)
  {
  }

  lemma LabelShows(entries: seq<Entry>, labels: seq<string>, baseline: Baseline, i: nat)
    requires i < |labels| && baseline.supported
    ensures Shows(entries, labels, baseline, Entry("", 0), Label(i)) <==> i in NewIndices(labels, baseline.labels)
  {
    assert StartsAt(labels[i], "", 0);
  }

  /** A page whose baseline was not read shows an entry that was there all along as new. */
  lemma UnreadEntryIsTakenForNew(w: World)
    requires !WasRead(w) && PageBefore(w).entries != []
    ensures var page := PageBefore(w);
      && Shows(page.entries, page.labels, BaselineOf(w), page.entries[0], InputEntry(0))
      && !Shows(page.entries, page.labels, AsItWas(page), page.entries[0], InputEntry(0))
  {
    hide Shows, NewIndices;
    var page := PageBefore(w);
    EntryShows(page.entries, page.labels, BaselineOf(w), 0);
    EntryShows(page.entries, page.labels, AsItWas(page), 0);
    FirstIsNew(page.entries);
    NothingIsNew(page.entries);
  }

  lemma LooseLabelIsTakenForNew(w: World, i: nat)
    requires WasRead(w) && i < |PageBefore(w).labels| && !IsSqueezed(PageBefore(w).labels[i])
    ensures var page := PageBefore(w);
      && Shows(page.entries, page.labels, BaselineOf(w), Entry("", 0), Label(i))
      && !Shows(page.entries, page.labels, AsItWas(page), Entry("", 0), Label(i))
  {
    hide Shows, NewIndices, IsSqueezed, Recorded;
    var page := PageBefore(w);
    LabelShows(page.entries, page.labels, BaselineOf(w), i);
    LabelShows(page.entries, page.labels, AsItWas(page), i);
    LooseLabelIsNew(page.labels, i);
    NothingIsNew(page.labels);
  }

  ghost predicate JudgesAsThePage(w: World) {
    forall entries, labels, expected, p ::
      Shows(entries, labels, BaselineOf(w), expected, p) ==> Shows(entries, labels, AsItWas(PageBefore(w)), expected, p)
  }

  /** Evidence against the baseline is evidence against the page as it was, on every later
      page and for every file, if and only if the baseline was read off a page whose labels
      carry no surplus white space, or was not read and the input was empty. */
  lemma BaselineJudgesExactly(w: World)
    ensures JudgesAsThePage(w) <==> BaselineIsFair(w)
  {
    hide Shows, BaselineOf, AsItWas, WasRead, IsSqueezed;
    if BaselineIsFair(w) {
      forall entries, labels, expected, p | Shows(entries, labels, BaselineOf(w), expected, p)
        ensures Shows(entries, labels, AsItWas(PageBefore(w)), expected, p)
      {
        FairShows(w, entries, labels, expected, p);
      }
    } else if WasRead(w) {
      var i: nat :| i < |PageBefore(w).labels| && !IsSqueezed(PageBefore(w).labels[i]);
      LooseLabelIsTakenForNew(w, i);
    } else {
      UnreadEntryIsTakenForNew(w);
    }
  }

  datatype Result =
    | Attached
    | Indeterminate
    | DeadlineExhausted
    | TransportFailed
    | PermissionRequired
    | PathUnavailable
    | Errored

  /** The results whose blocker tells the caller that it may try again. */
  predicate IsResumable(r: Result) {
    r == DeadlineExhausted || r == TransportFailed || r == PermissionRequired || r == PathUnavailable
  }

  function AnyPermission(faults: seq<Fault>): bool {
    exists i :: 0 <= i < |faults| && faults[i].permission
  }

  function AnyTransport(faults: seq<Fault>): bool {
    exists i :: 0 <= i < |faults| && faults[i].transport
  }

  class AttachRun {
    const world: World
    const files: seq<Entry>
    var log: Log
    var handoffStarted: bool
    var proofs: seq<Proof>

    constructor (world: World, files: seq<Entry>)
      ensures this.world == world && this.files == files
      ensures log == [] && !handoffStarted && proofs == []
    {
      this.world, this.files := world, files;
      log, handoffStarted, proofs := [], false, [];
    }

    function Remaining(): nat
      reads this`log
    {
      if world.now(log) >= world.deadline then 0 else world.deadline - world.now(log)
    }

    /** One way has been tried to its end: at most the hand-off was marked, never without
        the flag, and always if it went well. */
    ghost predicate Attempted(before: Log, o: Outcome)
      reads this`log, this`handoffStarted
    {
      && (Marks(log) == Marks(before) || (handoffStarted && Marks(log) == Marks(before) + [HandOff]))
      && (o.Fine? ==> handoffStarted && Marks(log) == Marks(before) + [HandOff])
      && (Look in log ==> Look in before)
    }

    /** `withinNativeAttachmentDeadline`: an operation that is not begun once the deadline
        has passed, and whose failure after it counts as the deadline's. */
    method Within(a: Action) returns (o: Outcome)
      modifies this`log
      ensures log == if world.now(old(log)) < world.deadline then old(log) + [a] else old(log)
      ensures o.Fine? <==> Succeeds(world, old(log), a)
      ensures Look in log ==> Look in old(log) || a == Look
      ensures Marks(log) == Marks(old(log)) + if IsMark(a) && log != old(log) then [a] else []
    {
      if Remaining() <= 0 {
        return Threw(DEADLINE);
      }
      MarksGrow(log, a);
      log := log + [a];
      o := world.answer(log);
      if o.Threw? && Remaining() <= 0 {
        o := Threw(DEADLINE);
      }
    }

    /** An inspection of the page: it may fail, and it may find that something does not hold. */
    method Require(a: Action) returns (o: Outcome)
      requires !IsMark(a) && a != Look
      modifies this`log
      ensures Marks(log) == Marks(old(log)) && (Look in log ==> Look in old(log))
      ensures o.Fine? <==> Succeeds(world, old(log), a) && world.holds(old(log) + [a])
      ensures o.Fine? ==> log == old(log) + [a]
    {
      o := Within(a);
      if o.Fine? && !world.holds(log) {
        o := Threw(PLAIN);
      }
    }

    /** `attachmentDelay`: a pause that does not reach the deadline. */
    method Delay(requested: nat) returns (o: Outcome)
      modifies this`log
      ensures Marks(log) == Marks(old(log)) && (Look in log ==> Look in old(log))
      ensures log == old(log) || (|log| == |old(log)| + 1 && log[..|old(log)|] == old(log) && log[|old(log)|].Settle?)
      ensures log != old(log) ==>
        log[|old(log)|].ms <= requested && world.now(old(log)) + log[|old(log)|].ms < world.deadline
      ensures o.Threw? ==> Remaining() <= 1
      ensures ClockRuns(world) ==> world.now(log) >= world.now(old(log))
      ensures ClockRuns(world) && o.Fine? && requested > 0 ==> world.now(log) > world.now(old(log))
    {
      var budget := Remaining();
      if budget <= 0 {
        return Threw(DEADLINE);
      }
      var ms := if requested < budget - 1 then requested else budget - 1;
      if ms <= 0 {
        return if requested > 0 then Threw(DEADLINE) else Fine;
      }
      MarksGrow(log, Settle(ms));
      log := log + [Settle(ms)];
      return Fine;
    }

    /** The native hand-off: the flag is set before the files can leave. */
    method HandOver() returns (o: Outcome)
      requires !handoffStarted
      modifies this`log, this`handoffStarted
      ensures handoffStarted && Attempted(old(log), o)
      ensures Marks(log) != Marks(old(log)) ==> log == old(log) + [HandOff]
      ensures o.Fine? <==> Succeeds(world, old(log), HandOff)
    {
      handoffStarted := true;
      o := Within(HandOff);
    }

    /** Both validations of the chooser succeed and find it as it should be, and so does the
        hand-off itself. */
    predicate ChooserWorks(before: Log) {
      var once, twice := before + [Validate], before + [Validate, Validate];
      && Succeeds(world, before, Validate) && world.holds(once)
      && Succeeds(world, once, Validate) && world.holds(twice)
      && Succeeds(world, twice, HandOff)
    }

    /** The chooser that was waited for is checked, then given the files. */
    method UseChooser(chooser: Outcome) returns (o: Outcome)
      requires !handoffStarted
      modifies this`log, this`handoffStarted
      ensures Attempted(old(log), o)
      ensures Marks(log) != Marks(old(log)) ==> log == old(log) + [Validate, Validate, HandOff]
      ensures o.Fine? <==> chooser.Fine? && ChooserWorks(old(log))
    {
      if chooser.Threw? {
        return chooser;
      }
      assert old(log) + [Validate] + [Validate] == old(log) + [Validate, Validate];
      o := Require(Validate);
      if o.Threw? {
        return;
      }
      o := Require(Validate);
      if o.Threw? {
        return;
      }
      o := HandOver();
      assert old(log) + [Validate] + [Validate] + [HandOff] == old(log) + [Validate, Validate, HandOff];
      if o.Threw? {
        o := Threw(o.fault.(deadline := false));
      }
    }

    /** `clickFileChooserLocator`: the wait for the chooser begins before the click. */
    method ClickFileChooser() returns (o: Outcome)
      requires !handoffStarted
      modifies this`log, this`handoffStarted
      ensures Attempted(old(log), o)
      ensures Marks(log) != Marks(old(log)) ==> log == old(log) + [AwaitChooser, Click, Validate, Validate, HandOff]
    {
      hide Marks;
      if !world.holds(log) {
        return Threw(PLAIN);
      }
      var chooser := Within(AwaitChooser);
      o := Within(Click);
      if o.Threw? {
        return;
      }
      ghost var clicked := log;
      o := UseChooser(chooser);
      assert clicked == old(log) + [AwaitChooser] + [Click] ==>
        clicked + [Validate, Validate, HandOff] == old(log) + [AwaitChooser, Click, Validate, Validate, HandOff];
    }

    /** `clickChatGPTAddPhotosMenuItem`: opens the menu if its row is not there yet. */
    method ClickMenuItem() returns (o: Outcome)
      requires !handoffStarted
      modifies this`log, this`handoffStarted
      ensures Attempted(old(log), o)
    {
      o := Within(Probe);
      if o.Threw? {
        return;
      }
      if !world.holds(log) {
        o := OpenMenu();
        if o.Threw? {
          return;
        }
      }
      o := Require(Probe);
      if o.Threw? {
        return;
      }
      o := Require(Probe);
      if o.Threw? {
        return;
      }
      o := ClickFileChooser();
    }

    method OpenMenu() returns (o: Outcome)
      modifies this`log
      ensures Marks(log) == Marks(old(log)) && (Look in log ==> Look in old(log))
    {
      o := Require(Probe);
      if o.Threw? {
        return;
      }
      o := Require(Probe);
      if o.Threw? {
        return;
      }
      o := Within(Click);
      if o.Threw? {
        return;
      }
      o := Delay(250);
    }

    /** `clickHiddenFileInputWithCdp`: here as well. */
    method ClickWithCdp() returns (o: Outcome)
      requires !handoffStarted
      modifies this`log, this`handoffStarted
      ensures Attempted(old(log), o)
      ensures Marks(log) != Marks(old(log)) ==> log == old(log) + [Probe, AwaitChooser, Click, Validate, Validate, HandOff]
    {
      hide Marks;
      o := Require(Probe);
      if o.Threw? {
        return;
      }
      var chooser := Within(AwaitChooser);
      o := Require(Click);
      if o.Threw? {
        return;
      }
      ghost var clicked := log;
      o := UseChooser(chooser);
      assert clicked == old(log) + [Probe] + [AwaitChooser] + [Click] ==>
        clicked + [Validate, Validate, HandOff] == old(log) + [Probe, AwaitChooser, Click, Validate, Validate, HandOff];
    }

    method Try(attempt: Attempt) returns (o: Outcome)
      requires !handoffStarted
      modifies this`log, this`handoffStarted
      ensures Attempted(old(log), o)
    {
      match attempt
      case VisibleInput =>
        o := Require(Probe);
        if o.Fine? {
          o := ClickFileChooser();
        }
      case MenuItem =>
        o := ClickMenuItem();
      case GenericButton =>
        o := Require(Probe);
        if o.Fine? {
          o := ClickFileChooser();
        }
      case CdpChooser =>
        o := ClickWithCdp();
      case DirectInput =>
        if !world.holds(log) {
          return Threw(PLAIN);
        }
        o := HandOver();
    }

    /** `uploadFiles`: the ways in order, each marked in the log as it is taken up. Once a
        hand-off has begun its error ends the cascade, as do a permission and a transport
        error at any time; otherwise the plan is exhausted or the time is. */
    method Upload(cdpAuthorized: bool) returns (o: Outcome, ghost tried: nat, ghost handed: bool, ghost ends: seq<Outcome>)
      requires Marks(log) == [] && !handoffStarted
      modifies this`log, this`handoffStarted
      ensures Look in log ==> Look in old(log)
      ensures var plan := Plan(HasInput(world, old(log)), cdpAuthorized);
        && IsCascade(log, plan, tried, handed)
        && (handed ==> handoffStarted) && (handoffStarted ==> tried > 0) && (o.Fine? ==> handed)
        && (o.Threw? && !handoffStarted && !o.fault.permission && !o.fault.transport ==>
              o.fault.path && (tried == |plan| || Remaining() == 0))
        && |ends| == tried && WentOn(ends)
    {
      hide Marks, Plan, IsCascade, AnyPermission, AnyTransport;
      var input := Within(Probe);
      var hasInput := input.Fine? && world.holds(log);
      var attempts := Plan(hasInput, cdpAuthorized);
      assert hasInput == HasInput(world, old(log));
      o, tried, handed, ends := TryAll(attempts, if input.Threw? then [input.fault] else []);
    }

    /** Every way but the last was left for the next with an error that is no matter of
        permission or of the connection. */
    ghost predicate WentOn(ends: seq<Outcome>) {
      forall i :: 0 <= i < |ends| - 1 ==> ends[i].Threw? && !ends[i].fault.permission && !ends[i].fault.transport
    }

    /** `ends` records how each way ended. */
    method TryAll(attempts: seq<Attempt>, earlier: seq<Fault>)
      returns (o: Outcome, ghost tried: nat, ghost handed: bool, ghost ends: seq<Outcome>)
      requires Marks(log) == [] && !handoffStarted
      modifies this`log, this`handoffStarted
      ensures IsCascade(log, attempts, tried, handed) && (Look in log ==> Look in old(log))
      ensures (handed ==> handoffStarted) && (handoffStarted ==> tried > 0) && (o.Fine? ==> handed)
      ensures o.Threw? && !handoffStarted && !o.fault.permission && !o.fault.transport ==>
        o.fault.path && (tried == |attempts| || Remaining() == 0)
      ensures |ends| == tried && WentOn(ends)
    {
      var faults, i := earlier, 0;
      tried, handed, ends := 0, false, [];
      assert Marks(log) == Begun(attempts[..0]);
      hide Marks, Begun, AnyPermission, AnyTransport;
      while i < |attempts|
        invariant 0 <= i <= |attempts| && !handoffStarted && (Look in log ==> Look in old(log))
        invariant Marks(log) == Begun(attempts[..i])
        invariant |ends| == i && forall k :: 0 <= k < i ==> ends[k].Threw? && !ends[k].fault.permission && !ends[k].fault.transport
      {
        if Remaining() <= 0 {
          break;
        }
        var ended := TakeUp(attempts, i);
        i, ends := i + 1, ends + [ended];
        if ended.Fine? || handoffStarted || ended.fault.permission || ended.fault.transport {
          return ended, i, Marks(log) != Begun(attempts[..i]), ends;
        }
        faults := faults + [ended.fault];
      }
      return Threw(Fault(false, AnyPermission(faults), AnyTransport(faults), true)), i, false, ends;
    }

    method TakeUp(attempts: seq<Attempt>, i: nat) returns (o: Outcome)
      requires i < |attempts| && Marks(log) == Begun(attempts[..i]) && !handoffStarted
      modifies this`log, this`handoffStarted
      ensures Look in log ==> Look in old(log)
      ensures var begun := Begun(attempts[..i + 1]);
        && (Marks(log) == begun || (handoffStarted && Marks(log) == begun + [HandOff]))
        && (o.Fine? ==> handoffStarted && Marks(log) == begun + [HandOff])
    {
      MarksGrow(log, Begin(attempts[i]));
      BegunGrows(attempts, i);
      log := log + [Begin(attempts[i])];
      o := Try(attempts[i]);
    }

    /** The look shows every file, however the matcher goes about it, and nothing in progress. */
    ghost predicate IsShown(baseline: Baseline, seen: Option<View>) {
      && seen.Some? && seen.value.supported && !seen.value.processing
      && forall found: seq<Proof> :: Matched(seen.value.entries, seen.value.labels, baseline, files, found) ==>
           Missing !in found
    }

    /** No look of this log, from there on, has shown them. */
    ghost predicate NotShown(baseline: Baseline, log: Log, since: nat) {
      forall n :: since < n <= |log| && log[n - 1] == Look ==> !IsShown(baseline, world.view(log[..n]))
    }

    /** The last thing done was a look, and it failed or could not tell. */
    predicate LookFailed()
      reads this`log
    {
      && log != [] && log[|log| - 1] == Look
      && (world.view(log).None? || !world.view(log).value.supported)
    }

    /** One inspection: it fails, it shows every file, or something is still missing. */
    method Inspect(baseline: Baseline, ghost since: nat) returns (failed: bool, ready: bool)
      requires since <= |log| && NotShown(baseline, log, since)
      modifies this`log, this`proofs
      ensures log == old(log) + [Look] && Marks(log) == Marks(old(log))
      ensures (failed <==> LookFailed()) && (ready ==> Verified(baseline)) && (!ready ==> NotShown(baseline, log, since))
    {
      hide NotShown, Marks, Matched;
      MarksGrow(log, Look);
      log := log + [Look];
      var seen := world.view(log);
      failed, ready := seen.None? || !seen.value.supported, false;
      if !failed {
        proofs := MatchFiles(seen.value.entries, seen.value.labels, baseline, files);
        ready := !seen.value.processing && AllVisible();
        MatchedParts(seen.value, baseline);
      }
      if !ready {
        OneMoreLook(old(log), baseline, since);
      }
    }

    lemma MatchedParts(v: View, baseline: Baseline)
      requires Matched(v.entries, v.labels, baseline, files, proofs)
      ensures |proofs| == |files| && Injective(proofs)
      ensures forall j :: 0 <= j < |files| ==> Shows(v.entries, v.labels, baseline, files[j], proofs[j])
    {
    }

    /** `waitForAttachedFilesReady`: polls until all files are visible and nothing is being
        processed; an inspection that fails or is not supported ends it unverified. Ready
        means that the last thing done was a look that showed it; not ready, that no look
        did, and that it went on until a look failed or the time was up. */
    method WaitReady(baseline: Baseline) returns (ready: bool, o: Outcome)
      requires ClockRuns(world)
      modifies this`log, this`proofs
      ensures Marks(log) == Marks(old(log))
      ensures ready ==> o.Fine? && Verified(baseline)
      ensures !ready ==> NotShown(baseline, log, |old(log)|) && (LookFailed() || Remaining() <= 10)
      ensures old(log) <= log
    {
      ready, o := false, Fine;
      ghost var since := |log|;
      hide Marks, NotShown, LookFailed, Verified;
      NoneYet(baseline);
      while Remaining() > 0
        invariant Marks(log) == Marks(old(log)) && !ready && o.Fine?
        invariant old(log) <= log && NotShown(baseline, log, since)
        decreases Remaining()
      {
        assert world.now(log + [Look]) >= world.now(log);
        var failed;
        failed, ready := Inspect(baseline, since);
        if failed || ready {
          return;
        }
        var budget := Remaining();
        if budget <= 10 {
          return;
        }
        ghost var looked := log;
        o := Delay(if budget - 10 < 250 then budget - 10 else 250);
        SettlingIsNoLook(looked, baseline, since);
        if o.Threw? {
          return;
        }
      }
    }

    lemma NeverLooked(baseline: Baseline)
      ensures Look !in log ==> NotShown(baseline, log, 0)
    {
    }

    lemma NoneSince(before: Log, baseline: Baseline)
      requires Look !in before && before <= log
      ensures NotShown(baseline, log, |before|) ==> NotShown(baseline, log, 0)
    {
      forall i | 0 <= i < |before|
        ensures log[i] != Look
      {
        assert before[i] in before;
      }
    }

    lemma NoneYet(baseline: Baseline)
      ensures NotShown(baseline, log, |log|)
    {
    }

    lemma SettlingIsNoLook(before: Log, baseline: Baseline, since: nat)
      requires NotShown(baseline, before, since)
      requires log == before || (|log| == |before| + 1 && log[..|before|] == before && log[|before|].Settle?)
      ensures NotShown(baseline, log, since)
    {
      forall n | since < n <= |log| && log[n - 1] == Look
        ensures !IsShown(baseline, world.view(log[..n]))
      {
        assert log[..n] == before[..n];
      }
    }

    lemma OneMoreLook(before: Log, baseline: Baseline, since: nat)
      requires log == before + [Look] && since <= |before| && NotShown(baseline, before, since)
      requires var seen := world.view(log);
        || seen.None? || !seen.value.supported || seen.value.processing
        || (Matched(seen.value.entries, seen.value.labels, baseline, files, proofs) && !AllVisible())
      ensures NotShown(baseline, log, since)
    {
      hide Matched;
      forall n | since < n <= |log| && log[n - 1] == Look
        ensures !IsShown(baseline, world.view(log[..n]))
      {
        if n == |log| {
          assert log[..n] == log;
        } else {
          assert log[..n] == before[..n];
        }
      }
    }

    predicate AllVisible()
      reads this`proofs
    {
      forall j :: 0 <= j < |proofs| ==> !proofs[j].Missing?
    }

    /** What the page shows at the end of the log, which is a look: nothing in progress, and
        for every file a piece of evidence of its own that was not there at the baseline. */
    ghost predicate Verified(baseline: Baseline)
      reads this`log, this`proofs
    {
      && log != [] && log[|log| - 1] == Look
      && var v := world.view(log);
      && v.Some? && v.value.supported && !v.value.processing
      && |proofs| == |files| && AllVisible() && Injective(proofs)
      && (forall j :: 0 <= j < |files| ==> Shows(v.value.entries, v.value.labels, baseline, files[j], proofs[j]))
      && WithinDifference(v.value.entries, v.value.labels, baseline, proofs)
    }

    /** How the flag and the result go together. */
    ghost predicate Fits(r: Result)
      reads this`handoffStarted
    {
      && (handoffStarted <==> r == Attached || r == Indeterminate)
      && (IsResumable(r) || r == Errored <==> !handoffStarted)
    }

    /** From the upload on: the cascade, a pause, and the look that decides. */
    method HandAll(baseline: Baseline, authorized: bool) returns (r: Result, ghost tried: nat, ghost handed: bool)
      requires Marks(log) == [] && !handoffStarted && ClockRuns(world) && Look !in log
      modifies this
      ensures Fits(r) && (handed ==> handoffStarted) && (r == Attached ==> handed)
      ensures IsCascade(log, Plan(HasInput(world, old(log)), authorized), tried, handed)
      ensures if r == Attached then Verified(baseline) else NotShown(baseline, log, 0)
    {
      hide Marks, HasInput, Verified, NotShown;
      var o;
      ghost var ends;
      o, tried, handed, ends := Upload(authorized);
      NeverLooked(baseline);
      if o.Threw? {
        r := Explain(o.fault);
        return;
      }
      o := Delay(SettlingTime());
      NeverLooked(baseline);
      if o.Threw? {
        r := Explain(o.fault);
        return;
      }
      ghost var since := log;
      var ready;
      ready, o := WaitReady(baseline);
      NoneSince(since, baseline);
      if o.Threw? {
        r := Explain(o.fault);
      } else {
        r := if ready then Attached else Indeterminate;
      }
    }

    /** `attachFiles` from a verified preflight on. */
    method Attach() returns (r: Result, ghost tried: nat)
      requires log == [] && !handoffStarted && ClockRuns(world)
      modifies this
      ensures Fits(r) && HandOffs(log) <= 1 && (!handoffStarted ==> HandOffs(log) == 0)
      ensures IsCascade(log, PlanOf(world), tried, HandOffs(log) == 1)
      ensures r == Attached ==> HandOffs(log) == 1 && Verified(BaselineOf(world))
      ensures r != Attached ==> NotShown(BaselineOf(world), log, 0)
      ensures r == Attached && BaselineIsFair(world) ==> Verified(AsItWas(PageBefore(world)))
    {
      hide Marks, HasInput, BaselineOf, Verified, NotShown, BaselineIsFair, HandOffs, IsCascade, PageBefore, AsItWas, Prepared;
      var early, baseline, authorized;
      early, baseline, authorized := Prepare();
      if early.Some? {
        tried, r := 0, early.value;
        NothingTried(log, PlanOf(world));
        NeverLooked(BaselineOf(world));
        return;
      }
      ghost var handed;
      r, tried, handed := HandAll(baseline, authorized);
      CascadeHandsOnce(log, PlanOf(world), tried, handed);
      if r == Attached && BaselineIsFair(world) {
        FairIsVerified();
      }
    }

    lemma FairIsVerified()
      requires Verified(BaselineOf(world)) && BaselineIsFair(world)
      ensures Verified(AsItWas(PageBefore(world)))
    {
      hide Shows, BaselineOf, BaselineIsFair, AsItWas, WithinDifference;
      var v := world.view(log).value;
      forall j | 0 <= j < |files|
        ensures Shows(v.entries, v.labels, AsItWas(PageBefore(world)), files[j], proofs[j])
      {
        FairShows(world, v.entries, v.labels, files[j], proofs[j]);
      }
      EvidenceIsDifference(v.entries, v.labels, AsItWas(PageBefore(world)), files, proofs);
    }

    /** The page is verified and the baseline read, before anything is tried. */
    method Prepare() returns (early: Option<Result>, baseline: Baseline, authorized: bool)
      requires log == [] && !handoffStarted
      modifies this`log
      ensures Marks(log) == [] && Look !in log
      ensures early.Some? ==> early.value == DeadlineExhausted || early.value == Errored
      ensures early.None? ==> log == Prepared(world) && baseline == BaselineOf(world) && authorized == world.holds(log)
    {
      baseline, authorized := UNSUPPORTED, false;
      assert Marks([]) == [] && [] + [Probe] == [Probe];
      hide Marks, Prepared, BaselineOf;
      var boot := Within(Probe);
      if boot.Threw? {
        return Some(if boot.fault.deadline || Remaining() <= 0 then DeadlineExhausted else Errored), baseline, authorized;
      }
      baseline := ReadBaseline();
      return None, baseline, world.holds(log);
    }

    /** The baseline, or the empty one if it cannot be read. */
    method ReadBaseline() returns (baseline: Baseline)
      requires log == [Probe] && Marks(log) == []
      modifies this`log
      ensures Marks(log) == [] && Look !in log && log == Prepared(world) && baseline == BaselineOf(world)
    {
      hide Marks, Recorded;
      assert [Probe] + [Probe] == [Probe, Probe];
      var looked := Within(Probe);
      baseline := UNSUPPORTED;
      if looked.Fine? {
        var page := world.before(log);
        if page.readable {
          baseline := Baseline(true, page.entries, Recorded(page.labels));
        }
      }
    }

    function SettlingTime(): nat
      reads this`log
    {
      var quarter := Remaining() / 4;
      if quarter < 1 then 1 else if quarter > 250 then 250 else quarter
    }

    /** The catch clause of `attachFiles`. */
    method Explain(fault: Fault) returns (r: Result)
      ensures r != Attached
      ensures r == Indeterminate <==> handoffStarted
      ensures r == DeadlineExhausted <==> !handoffStarted && (fault.deadline || Remaining() == 0)
      ensures r == TransportFailed ==> fault.transport && Remaining() > 0
      ensures r == PermissionRequired ==> fault.permission && !fault.transport
      ensures r == PathUnavailable ==> fault.path && !fault.permission && !fault.transport
      ensures r == Errored ==> !fault.path && !fault.permission && !fault.transport
    {
      if handoffStarted {
        return Indeterminate;
      }
      if fault.deadline || Remaining() <= 0 {
        return DeadlineExhausted;
      }
      if fault.transport {
        return TransportFailed;
      }
      if fault.permission {
        return PermissionRequired;
      }
      if fault.path {
        return PathUnavailable;
      }
      return Errored;
    }
  }
}
