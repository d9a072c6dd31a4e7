/**
 `waitForMessage`: polling until the answer has been stable for long enough. The page and
 the clock are oracles read at successive moments; the loop itself only looks.
*/
module WaitLoop {
  import opened Probes
  import opened Wire

  /** What a poll learns of the text: normalized length, hash, and whether it is one of
      the placeholders shown before an answer. */
  datatype Meta = Meta(length: nat, hash: nat, transient: bool)

  datatype Generation = Generation(observed: bool, active: bool, stopped: bool)

  datatype Snapshot = Snapshot(
    turnCount: nat,
    assistantTurnCount: nat,
    latestAssistantTurnIndex: Option<nat>,
    text: Meta,
    generation: Generation,
    hasResponseActions: Option<bool>)

  const NO_TEXT := Meta(0, 0x811c9dc5, false)
  const NO_GENERATION := Generation(false, false, false)
  const PAGE_STATE_POLL_STRIDE := 4

  datatype Args = Args(
    afterAssistantTurnCount: Option<nat>,
    afterTurnCount: Option<nat>,
    timeoutMs: nat,
    stableMs: nat,
    pollMs: nat)

  /** The page and the clock at moment `t`; moments only ever go up. */
  datatype World = World(
    now: nat -> nat,
    race: nat -> Race<Option<Snapshot>>,     // how a probe begun now would end
    settled: nat -> bool,                    // whether a probe left running has ended by now
    fallback: (nat, nat) -> Snapshot,        // the degraded snapshot, given the last count of assistant turns
    copyButtons: nat -> bool,                // the structural sign of response actions
    blocked: nat -> bool,                    // the page state shows a blocker other than a modal
    fetch: nat -> Option<Meta>,              // the latest assistant text, if it can be read
    afterPause: nat -> nat)                  // the moment a pause begun now ends

  /** Time does not run backwards, and a pause takes some, at least what was asked for. */
  ghost predicate ClockRuns(w: World, pollMs: nat) {
    && (forall t: nat :: w.now(t + 1) >= w.now(t))
    && (forall t: nat :: w.now(w.afterPause(t)) >= w.now(t) + pollMs && w.now(w.afterPause(t)) > w.now(t))
    && (forall t: nat :: w.afterPause(t) > t)
  }

  /** `waitTargetReached`. */
  predicate TargetReached(args: Args, s: Snapshot) {
    && (args.afterAssistantTurnCount.None? || s.assistantTurnCount > args.afterAssistantTurnCount.value)
    && (args.afterTurnCount.None?
        || (if s.latestAssistantTurnIndex.Some? then s.latestAssistantTurnIndex.value > args.afterTurnCount.value
            else s.turnCount > args.afterTurnCount.value))
  }

  datatype Key = Key(length: nat, hash: nat)

  /** `targetKey`; `None` is the empty key. */
  function TargetKey(args: Args, s: Snapshot): Option<Key> {
    if TargetReached(args, s) && s.text.length > 0 then Some(Key(s.text.length, s.text.hash)) else None
  }

  /** `isResponseComplete`, of a normalized text known by its metadata. */
  predicate IsResponseComplete(text: Meta, stableFor: int, stableMs: nat, g: Generation, actions: bool) {
    && text.length > 0 && !text.transient
    && stableFor >= stableMs
    && g.observed && !g.active && !g.stopped
    && actions
  }

  /** One poll: the moment its probe was asked for, how that ended, and the snapshot the
      loop took it for. What follows in the same round happens at the next moment, and a
      fetch of the text takes one more. */
  datatype Poll = Poll(start: nat, result: ProbeResult<Option<Snapshot>>, snapshot: Snapshot)

  predicate IsAnswered(p: Poll) {
    p.result.Value? || p.result.Failed?
  }

  /** How a probe asked for at moment `t` ends, if `out` says whether an earlier one was
      still running when it was last looked at. */
  function ProbeOutcome(args: Args, w: World, t: nat, out: bool): ProbeResult<Option<Snapshot>> {
    if out && !w.settled(t) then Skipped
    else if w.now(t) - w.now(0) >= args.timeoutMs as int then ProbeResult.TimedOut
    else match w.race(t)
         case Answered(v) => Value(v)
         case Rejected => Failed
         case TimerFirst => ProbeResult.TimedOut
  }

  /** The probe of this poll, or the one it was skipped for, may still be running. */
  predicate LeavesRunning(args: Args, w: World, p: Poll) {
    p.result.Skipped? || (p.result.TimedOut? && w.now(p.start) - w.now(0) < args.timeoutMs as int)
  }

  /** `waitSnapshotFromProbeResult`: the page's own answer, the degraded snapshot, or, when
      nothing was learned, a snapshot without text. */
  function SnapshotOf(w: World, t: nat, result: ProbeResult<Option<Snapshot>>, previous: nat): Snapshot {
    match result
    case Value(v) => if v.Some? then v.value else w.fallback(t + 1, previous)
    case Failed => w.fallback(t + 1, previous)
    case TimedOut => Snapshot(0, previous, None, NO_TEXT, NO_GENERATION, Some(false))
    case Skipped => Snapshot(0, previous, None, NO_TEXT, NO_GENERATION, Some(false))
  }

  /** `resolveResponseActions` at the poll's moment. */
  predicate ActionsShown(w: World, p: Poll) {
    if p.snapshot.hasResponseActions.Some? then p.snapshot.hasResponseActions.value else w.copyButtons(p.start + 1)
  }

  /** `fetchLatestAssistantText` from moment `t`, normalized, with its one retry. */
  function Fetched(w: World, t: nat): Meta {
    if w.fetch(t).Some? then w.fetch(t).value
    else if w.fetch(t + 1).Some? then w.fetch(t + 1).value
    else NO_TEXT
  }

  datatype Outcome =
    | Complete(text: Meta)
    | Stopped(text: Meta)     // without text if it could not be read again
    | Blocked
    | Partial(text: Meta)
    | TimedOut
    | NotYet

  // ----- what a record of polls comes to

  function Earlier(polls: seq<Poll>): seq<Poll>
    requires polls != []
  {
    polls[..|polls| - 1]
  }

  function Last(polls: seq<Poll>): Poll
    requires polls != []
  {
    polls[|polls| - 1]
  }

  lemma Grown(polls: seq<Poll>, p: Poll)
    ensures Earlier(polls + [p]) == polls && Last(polls + [p]) == p
  {
  }

  /** The key that is being watched, the moment it last changed, and the length last observed. */
  datatype Window = Window(key: Option<Key>, changed: nat, observed: nat)

  /** The change test of one poll. */
  function Shift(args: Args, win: Window, p: Poll): Window {
    var key := TargetKey(args, p.snapshot);
    var win1 := if key != win.key then win.(key := key, changed := p.start + 1) else win;
    if key.Some? then win1.(observed := p.snapshot.text.length) else win1
  }

  /** Every fourth poll looks for a blocker, at its own moment. */
  predicate IsBlocked(w: World, index: nat, p: Poll) {
    index % PAGE_STATE_POLL_STRIDE == 0 && w.blocked(p.start + 1)
  }

  predicate IsStopped(args: Args, p: Poll) {
    TargetKey(args, p.snapshot).Some? && p.snapshot.generation.stopped
  }

  /** The poll leaves nothing to wait for: an answer that is neither being written nor
      stopped nor a placeholder, with its response actions shown. */
  predicate Suffices(w: World, p: Poll) {
    && p.snapshot.generation == Generation(true, false, false)
    && !p.snapshot.text.transient && ActionsShown(w, p)
  }

  predicate MetadataComplete(args: Args, w: World, win: Window, p: Poll) {
    && win.key.Some? && Suffices(w, p)
    && w.now(p.start + 1) - w.now(win.changed) >= args.stableMs as int
  }

  /** The text fetched right after the poll confirms it. */
  predicate Confirms(args: Args, w: World, win: Window, p: Poll) {
    var text := Fetched(w, p.start + 1);
    && text.hash == p.snapshot.text.hash
    && IsResponseComplete(text, w.now(p.start + 2) - w.now(win.changed), args.stableMs, p.snapshot.generation, ActionsShown(w, p))
  }

  /** A fetched text that does not confirm the poll starts the window again with itself. */
  function Restarted(args: Args, w: World, win: Window, p: Poll): Window {
    var text := Fetched(w, p.start + 1);
    if !Confirms(args, w, win, p) && text.length > 0
    then Window(Some(Key(text.length, text.hash)), p.start + 2, text.length) else win
  }

  /** How the round of the `index`-th poll ends, once the poll has moved the window. */
  function Judged(args: Args, w: World, win: Window, index: nat, p: Poll): Outcome {
    if IsBlocked(w, index, p) then Blocked
    else if IsStopped(args, p) then Stopped(Fetched(w, p.start + 1))
    else if MetadataComplete(args, w, win, p) && Confirms(args, w, win, p) then Complete(Fetched(w, p.start + 1))
    else NotYet
  }

  /** Whether the text is fetched in this round. */
  predicate Fetches(args: Args, w: World, win: Window, index: nat, p: Poll) {
    !IsBlocked(w, index, p) && (IsStopped(args, p) || MetadataComplete(args, w, win, p))
  }

  function WindowAfter(args: Args, w: World, polls: seq<Poll>): Window
    decreases |polls|
  {
    if polls == [] then Window(None, 0, 0)
    else
      var p := Last(polls);
      var win := Shift(args, WindowAfter(args, w, Earlier(polls)), p);
      if Fetches(args, w, win, |polls| - 1, p) && !IsStopped(args, p) then Restarted(args, w, win, p) else win
  }

  function Verdict(args: Args, w: World, polls: seq<Poll>): Outcome
    requires polls != []
  {
    Judged(args, w, Shift(args, WindowAfter(args, w, Earlier(polls)), Last(polls)), |polls| - 1, Last(polls))
  }

  /** The moment at which the round of the last poll ends. */
  function RoundEnd(args: Args, w: World, polls: seq<Poll>): nat
    requires polls != []
  {
    var p := Last(polls);
    var win := Shift(args, WindowAfter(args, w, Earlier(polls)), p);
    if Fetches(args, w, win, |polls| - 1, p) then p.start + 2 else p.start + 1
  }

  function NextStart(args: Args, w: World, polls: seq<Poll>): nat {
    if polls == [] then 0 else w.afterPause(RoundEnd(args, w, polls))
  }

  predicate LeftRunning(args: Args, w: World, polls: seq<Poll>) {
    polls != [] && LeavesRunning(args, w, Last(polls))
  }

  function CountAfter(polls: seq<Poll>, firstCount: nat): nat {
    if polls == [] then firstCount else Last(polls).snapshot.assistantTurnCount
  }

  /** The polls are what the page showed, one after the other: each starts a pause after the
      round before it, which ended nothing and in time; its probe ends as the page has it
      at that moment; and its snapshot is taken from that. */
  predicate IsRecord(args: Args, w: World, firstCount: nat, polls: seq<Poll>)
    decreases |polls|
  {
    polls == []
    || (var before, p := Earlier(polls), Last(polls);
        && IsRecord(args, w, firstCount, before)
        && (before != [] ==> Verdict(args, w, before).NotYet?)
        && p.start == NextStart(args, w, before) && w.now(p.start) < w.now(0) + args.timeoutMs
        && p.result == ProbeOutcome(args, w, p.start, LeftRunning(args, w, before))
        && p.snapshot == SnapshotOf(w, p.start, p.result, CountAfter(before, firstCount)))
  }

  // ----- what a completion means

  lemma {:induction false} ClockIsMonotone(w: World, pollMs: nat, a: nat, b: nat)
    requires ClockRuns(w, pollMs) && a <= b
    ensures w.now(a) <= w.now(b)
    decreases b - a
  {
    if a == b {
    } else {
      ClockIsMonotone(w, pollMs, a, b - 1);
      assert w.now(b - 1 + 1) >= w.now(b - 1);
    }
  }

  lemma {:induction false} StartsGrow(args: Args, w: World, firstCount: nat, polls: seq<Poll>, k: nat)
    requires ClockRuns(w, args.pollMs) && IsRecord(args, w, firstCount, polls) && k < |polls| - 1
    ensures polls[k].start + 1 < Last(polls).start
    decreases |polls|
  {
    hide Verdict, ProbeOutcome, SnapshotOf, LeftRunning;
    var before := Earlier(polls);
    assert w.afterPause(RoundEnd(args, w, before)) > RoundEnd(args, w, before);
    if k == |polls| - 2 {
    } else {
      StartsGrow(args, w, firstCount, before, k);
    }
  }

  /** Every poll since the key last changed has that key. */
  lemma {:induction false} WindowIsUniform(args: Args, w: World, firstCount: nat, polls: seq<Poll>, k: nat)
    requires ClockRuns(w, args.pollMs) && IsRecord(args, w, firstCount, polls) && k < |polls|
    requires polls[k].start + 1 >= WindowAfter(args, w, polls).changed
    ensures TargetKey(args, polls[k].snapshot) == WindowAfter(args, w, polls).key
    decreases |polls|
  {
    hide TargetKey, Verdict, ProbeOutcome, SnapshotOf, LeftRunning, Fetches, IsStopped, Confirms, NextStart;
    var before := Earlier(polls);
    if k == |polls| - 1 {
    } else {
      StartsGrow(args, w, firstCount, polls, k);
      WindowIsUniform(args, w, firstCount, before, k);
    }
  }

  /** At moment `t`, one or two after it was asked for, the poll or the fetch after it saw the key. */
  predicate SeesKey(args: Args, w: World, p: Poll, key: Key, t: nat) {
    || (t == p.start + 1 && TargetKey(args, p.snapshot) == Some(key))
    || (t == p.start + 2 && Fetched(w, p.start + 1).length == key.length && Fetched(w, p.start + 1).hash == key.hash)
  }

  /** The key was seen at the moment from which the window counts. */
  lemma {:induction false} WindowIsOpened(args: Args, w: World, polls: seq<Poll>) returns (k: nat)
    requires WindowAfter(args, w, polls).key.Some?
    ensures var win := WindowAfter(args, w, polls); k < |polls| && SeesKey(args, w, polls[k], win.key.value, win.changed)
    decreases |polls|
  {
    hide TargetKey, Fetches, IsStopped, Confirms, Fetched;
    var win := WindowAfter(args, w, Earlier(polls));
    if WindowAfter(args, w, polls).changed == win.changed && WindowAfter(args, w, polls).key == win.key {
      k := WindowIsOpened(args, w, Earlier(polls));
    } else {
      k := |polls| - 1;
    }
  }

  lemma CompletedWindow(args: Args, w: World, polls: seq<Poll>)
    requires polls != [] && Verdict(args, w, polls).Complete?
    ensures var p, win, text := Last(polls), WindowAfter(args, w, polls), Verdict(args, w, polls).text;
      && text == Fetched(w, p.start + 1) && text.length > 0 && !text.transient
      && Suffices(w, p) && TargetKey(args, p.snapshot) == win.key && win.key.Some?
      && win.key.value.hash == text.hash
      && w.now(p.start + 1) - w.now(win.changed) >= args.stableMs as int
  {
    hide ActionsShown, Fetched, IsBlocked;
  }

  lemma {:induction false} AnsweredByKey(args: Args, w: World, firstCount: nat, polls: seq<Poll>, k: nat)
    requires IsRecord(args, w, firstCount, polls) && k < |polls| && TargetKey(args, polls[k].snapshot).Some?
    ensures IsAnswered(polls[k]) && !w.race(polls[k].start).TimerFirst?
    decreases |polls|
  {
    hide Verdict, NextStart, LeftRunning;
    if k < |polls| - 1 {
      AnsweredByKey(args, w, firstCount, Earlier(polls), k);
    }
  }

  /** The poll was over at least `stableMs` before the last one, or it was answered and found
      the target with the last one's key. */
  predicate IsOldOrSame(args: Args, w: World, p: Poll, last: Poll) {
    || w.now(p.start + 1) + args.stableMs <= w.now(last.start + 1)
    || (IsAnswered(p) && TargetReached(args, p.snapshot) && TargetKey(args, p.snapshot) == TargetKey(args, last.snapshot))
  }

  /** The round of the `k`-th poll went on to read the text, and there was one. */
  predicate ReadsText(args: Args, w: World, polls: seq<Poll>, k: nat)
    requires k < |polls|
  {
    RoundEnd(args, w, polls[..k + 1]) == polls[k].start + 2 && Fetched(w, polls[k].start + 1).length > 0
  }

  /** Nothing was skipped, timed out, missed the target or found another key within the
      last `stableMs`, and no text was read that did not complete the wait. */
  ghost predicate IsStable(args: Args, w: World, polls: seq<Poll>) {
    && polls != []
    && (forall k :: 0 <= k < |polls| ==> IsOldOrSame(args, w, polls[k], Last(polls)))
    && (forall k :: 0 <= k < |polls| - 1 && ReadsText(args, w, polls, k) ==>
          w.now(polls[k].start + 2) + args.stableMs <= w.now(Last(polls).start + 1))
  }

  lemma RecordStep(args: Args, w: World, firstCount: nat, polls: seq<Poll>)
    requires IsRecord(args, w, firstCount, polls) && polls != []
    ensures IsRecord(args, w, firstCount, Earlier(polls)) && Last(polls).start == NextStart(args, w, Earlier(polls))
    ensures Earlier(polls) != [] ==> Verdict(args, w, Earlier(polls)).NotYet?
  {
    hide Verdict, NextStart, LeftRunning, CountAfter, ProbeOutcome, SnapshotOf;
  }

  lemma RereadMovesWindow(args: Args, w: World, polls: seq<Poll>)
    requires polls != [] && Verdict(args, w, polls).NotYet? && ReadsText(args, w, polls, |polls| - 1)
    ensures WindowAfter(args, w, polls).changed == Last(polls).start + 2
  {
    assert polls[..|polls|] == polls;
    hide Confirms, IsStopped, Fetched, ActionsShown, IsBlocked, MetadataComplete, TargetKey;
  }

  lemma ChangedOnlyGrows(args: Args, w: World, polls: seq<Poll>)
    requires polls != []
    ensures var before, now := WindowAfter(args, w, Earlier(polls)).changed, WindowAfter(args, w, polls).changed;
      now == before || now > Last(polls).start
  {
    hide Confirms, IsStopped, Fetched, Fetches, TargetKey;
  }

  /** A text that was read without completing the wait starts the window again. */
  lemma {:induction false} RereadIsOld(args: Args, w: World, firstCount: nat, polls: seq<Poll>, k: nat)
    requires ClockRuns(w, args.pollMs) && IsRecord(args, w, firstCount, polls) && k < |polls|
    requires ReadsText(args, w, polls, k) && Verdict(args, w, polls[..k + 1]).NotYet?
    ensures WindowAfter(args, w, polls).changed >= polls[k].start + 2
    decreases |polls|
  {
    hide Verdict, WindowAfter, Fetched, IsRecord, ClockRuns;
    if k == |polls| - 1 {
      assert polls[..k + 1] == polls;
      RereadMovesWindow(args, w, polls);
    } else {
      assert Earlier(polls)[..k + 1] == polls[..k + 1];
      RecordStep(args, w, firstCount, polls);
      RereadIsOld(args, w, firstCount, Earlier(polls), k);
      ChangedOnlyGrows(args, w, polls);
      StartsGrow(args, w, firstCount, polls, k);
    }
  }

  lemma {:induction false} EarlierRoundsWentOn(args: Args, w: World, firstCount: nat, polls: seq<Poll>, k: nat)
    requires IsRecord(args, w, firstCount, polls) && k < |polls| - 1
    ensures Verdict(args, w, polls[..k + 1]).NotYet?
    decreases |polls|
  {
    hide Verdict;
    RecordStep(args, w, firstCount, polls);
    if k == |polls| - 2 {
      assert polls[..k + 1] == Earlier(polls);
    } else {
      assert Earlier(polls)[..k + 1] == polls[..k + 1];
      EarlierRoundsWentOn(args, w, firstCount, Earlier(polls), k);
    }
  }

  lemma PollIsOldOrSame(args: Args, w: World, firstCount: nat, polls: seq<Poll>, k: nat)
    requires ClockRuns(w, args.pollMs) && IsRecord(args, w, firstCount, polls) && polls != []
    requires Verdict(args, w, polls).Complete? && k < |polls|
    ensures IsOldOrSame(args, w, polls[k], Last(polls))
  {
    hide IsRecord, Verdict, WindowAfter, Suffices, ClockRuns;
    var changed := WindowAfter(args, w, polls).changed;
    CompletedWindow(args, w, polls);
    if polls[k].start + 1 >= changed {
      WindowIsUniform(args, w, firstCount, polls, k);
      AnsweredByKey(args, w, firstCount, polls, k);
    } else {
      ClockIsMonotone(w, args.pollMs, polls[k].start + 1, changed);
    }
  }

  /** A completion has been stable for the time asked for: whatever poll was skipped, timed
      out, or found another key or no target, was over at least `stableMs` before the last
      poll; one within that time rules the completion out. */
  lemma CompletionIsStable(args: Args, w: World, firstCount: nat, polls: seq<Poll>)
    requires ClockRuns(w, args.pollMs) && IsRecord(args, w, firstCount, polls) && polls != []
    requires Verdict(args, w, polls).Complete?
    ensures IsStable(args, w, polls)
  {
    hide IsRecord, Verdict, IsOldOrSame, ReadsText, WindowAfter, ClockRuns;
    forall k | 0 <= k < |polls|
      ensures IsOldOrSame(args, w, polls[k], Last(polls))
    {
      PollIsOldOrSame(args, w, firstCount, polls, k);
    }
    CompletedWindow(args, w, polls);
    forall k | 0 <= k < |polls| - 1 && ReadsText(args, w, polls, k)
      ensures w.now(polls[k].start + 2) + args.stableMs <= w.now(Last(polls).start + 1)
    {
      EarlierRoundsWentOn(args, w, firstCount, polls, k);
      RereadIsOld(args, w, firstCount, polls, k);
      ClockIsMonotone(w, args.pollMs, polls[k].start + 2, WindowAfter(args, w, polls).changed);
    }
  }

  /** And the key was already seen that long before. */
  lemma CompletionIsOld(args: Args, w: World, polls: seq<Poll>) returns (k: nat, t: nat)
    requires polls != [] && Verdict(args, w, polls).Complete?
    ensures k < |polls| && TargetKey(args, Last(polls).snapshot).Some?
    ensures SeesKey(args, w, polls[k], TargetKey(args, Last(polls).snapshot).value, t)
    ensures w.now(t) + args.stableMs <= w.now(Last(polls).start + 1)
  {
    hide Verdict, WindowAfter, Suffices, SeesKey;
    CompletedWindow(args, w, polls);
    t := WindowAfter(args, w, polls).changed;
    k := WindowIsOpened(args, w, polls);
  }

  /** What the page itself showed before a completion: an answer to the last probe before its
      timer, the response actions, and the very text. */
  lemma CompletionWasShown(args: Args, w: World, firstCount: nat, polls: seq<Poll>)
    requires IsRecord(args, w, firstCount, polls) && polls != [] && Verdict(args, w, polls).Complete?
    ensures var p, text := Last(polls), Verdict(args, w, polls).text;
      && !w.race(p.start).TimerFirst?
      && (p.snapshot.hasResponseActions == Some(true) || (p.snapshot.hasResponseActions.None? && w.copyButtons(p.start + 1)))
      && (w.fetch(p.start + 1) == Some(text) || (w.fetch(p.start + 1).None? && w.fetch(p.start + 2) == Some(text)))
  {
    CompletedWindow(args, w, polls);
    hide IsRecord, Verdict, WindowAfter;
    AnsweredByKey(args, w, firstCount, polls, |polls| - 1);
  }

  /** What it means that the answer waited for is there: more assistant turns than before,
      and a turn beyond the last one before. */
  predicate IsBeyond(args: Args, s: Snapshot) {
    var after, turns, index := args.afterAssistantTurnCount, args.afterTurnCount, s.latestAssistantTurnIndex;
    && (after.Some? ==> after.value < s.assistantTurnCount)
    && (turns.Some? && index.Some? ==> turns.value < index.value)
    && (turns.Some? && index.None? ==> turns.value < s.turnCount)
  }

  lemma ReachedIsBeyond(args: Args, s: Snapshot)
    ensures TargetReached(args, s) <==> IsBeyond(args, s)
  {
  }

  /** The poll shows what the page itself answered to its probe, in time. */
  predicate IsThePages(w: World, p: Poll, previous: nat) {
    match w.race(p.start)
    case Answered(v) => p.snapshot == if v.Some? then v.value else w.fallback(p.start + 1, previous)
    case Rejected => p.snapshot == w.fallback(p.start + 1, previous)
    case TimerFirst => false
  }

  lemma ReachedIsThePages(args: Args, w: World, firstCount: nat, polls: seq<Poll>)
    requires IsRecord(args, w, firstCount, polls) && polls != [] && TargetKey(args, Last(polls).snapshot).Some?
    ensures IsThePages(w, Last(polls), CountAfter(Earlier(polls), firstCount))
  {
    hide Verdict, NextStart, LeftRunning, TargetReached, CountAfter;
  }

  /** Only the answer waited for ends the wait: behind a completion or a stop the page itself
      showed more assistant turns and a later turn than there were, and text; generation had
      been seen and was over, or had been stopped. */
  lemma EndingWasBeyond(args: Args, w: World, firstCount: nat, polls: seq<Poll>)
    requires IsRecord(args, w, firstCount, polls) && polls != []
    requires Verdict(args, w, polls).Complete? || Verdict(args, w, polls).Stopped?
    ensures var s, o := Last(polls).snapshot, Verdict(args, w, polls);
      && IsBeyond(args, s) && s.text.length > 0
      && IsThePages(w, Last(polls), CountAfter(Earlier(polls), firstCount))
      && (o.Complete? ==> s.generation.observed && !s.generation.active && !s.generation.stopped)
      && (o.Stopped? ==> s.generation.stopped)
  {
    hide IsRecord, WindowAfter, Fetched, ActionsShown, IsThePages, IsBeyond;
    ReachedIsBeyond(args, Last(polls).snapshot);
    if Verdict(args, w, polls).Complete? {
      CompletedWindow(args, w, polls);
    }
    ReachedIsThePages(args, w, firstCount, polls);
  }

  // ----- what is not missed

  /** The poll shows the answer waited for, finished, and the text can be read right after. */
  predicate IsFinished(args: Args, w: World, p: Poll, text: Meta) {
    && IsBeyond(args, p.snapshot) && p.snapshot.text == text && text.length > 0 && !text.transient
    && p.snapshot.generation.observed && !p.snapshot.generation.active && !p.snapshot.generation.stopped
    && (p.snapshot.hasResponseActions == Some(true) || (p.snapshot.hasResponseActions == None && w.copyButtons(p.start + 1)))
    && w.fetch(p.start + 1) == Some(text)
  }

  lemma FinishedPoll(args: Args, w: World, p: Poll, text: Meta)
    requires IsFinished(args, w, p, text)
    ensures Suffices(w, p) && !IsStopped(args, p) && Fetched(w, p.start + 1) == text
    ensures TargetKey(args, p.snapshot) == Some(Key(text.length, text.hash))
    ensures forall win :: ClockRuns(w, args.pollMs) && MetadataComplete(args, w, win, p) ==> Confirms(args, w, win, p)
  {
    ReachedIsBeyond(args, p.snapshot);
    hide TargetReached, IsBeyond;
    if ClockRuns(w, args.pollMs) {
      var t := p.start + 1;
      assert w.now(t + 1) >= w.now(t);
    }
  }

  lemma {:induction false} ChangedIsPast(args: Args, w: World, firstCount: nat, polls: seq<Poll>)
    requires ClockRuns(w, args.pollMs) && IsRecord(args, w, firstCount, polls) && polls != []
    ensures WindowAfter(args, w, polls).changed <= RoundEnd(args, w, polls) < NextStart(args, w, polls)
    decreases |polls|
  {
    hide TargetKey, Verdict, ProbeOutcome, SnapshotOf, LeftRunning, IsStopped, Confirms, CountAfter;
    var before := Earlier(polls);
    assert w.afterPause(RoundEnd(args, w, polls)) > RoundEnd(args, w, polls);
    if before != [] {
      ChangedIsPast(args, w, firstCount, before);
    }
  }

  function LastWindow(args: Args, w: World, polls: seq<Poll>): Window
    requires polls != []
  {
    Shift(args, WindowAfter(args, w, Earlier(polls)), Last(polls))
  }

  /** A finished poll completes as soon as the window is old enough, and moves it only to its
      own moment. */
  lemma LastFinished(args: Args, w: World, polls: seq<Poll>, text: Meta)
    requires ClockRuns(w, args.pollMs) && polls != [] && IsFinished(args, w, Last(polls), text)
    ensures var p, win, before := Last(polls), LastWindow(args, w, polls), WindowAfter(args, w, Earlier(polls));
      && win.key == Some(Key(text.length, text.hash))
      && (win.changed == p.start + 1 || (win.changed == before.changed && before.key == win.key))
      && (before.key == win.key ==> win.changed == before.changed)
      && (Verdict(args, w, polls).NotYet? ==> WindowAfter(args, w, polls) == win)
      && (w.now(p.start + 1) - w.now(win.changed) >= args.stableMs as int ==>
            Verdict(args, w, polls) == Complete(text) || IsBlocked(w, |polls| - 1, p))
  {
    FinishedPoll(args, w, Last(polls), text);
    hide IsFinished, TargetKey, Suffices, IsStopped, Confirms, Fetched, ClockRuns, IsBlocked;
  }

  lemma FirstFinished(args: Args, w: World, firstCount: nat, polls: seq<Poll>, text: Meta)
    requires ClockRuns(w, args.pollMs) && IsRecord(args, w, firstCount, polls) && polls != []
    requires IsFinished(args, w, Last(polls), text)
    ensures LastWindow(args, w, polls).changed <= Last(polls).start + 1
  {
    hide IsFinished, ClockRuns, IsRecord, Verdict, WindowAfter, LastWindow, NextStart, RoundEnd;
    RecordStep(args, w, firstCount, polls);
    LastFinished(args, w, polls, text);
    if Earlier(polls) == [] {
      NoWindow(args, w, Earlier(polls));
    } else {
      ChangedIsPast(args, w, firstCount, Earlier(polls));
    }
  }

  lemma NextFinished(args: Args, w: World, firstCount: nat, polls: seq<Poll>, text: Meta)
    requires ClockRuns(w, args.pollMs) && IsRecord(args, w, firstCount, polls) && |polls| > 1
    requires IsFinished(args, w, Last(Earlier(polls)), text) && IsFinished(args, w, Last(polls), text)
    ensures LastWindow(args, w, polls).changed == LastWindow(args, w, Earlier(polls)).changed
  {
    hide IsFinished, ClockRuns, IsRecord, Verdict, WindowAfter, LastWindow, NextStart, RoundEnd;
    RecordStep(args, w, firstCount, polls);
    LastFinished(args, w, Earlier(polls), text);
    LastFinished(args, w, polls, text);
  }

  /** As long as it goes on, the window counts from the first of the finished polls at the latest. */
  lemma {:induction false} FinishedWindow(args: Args, w: World, firstCount: nat, polls: seq<Poll>, k: nat, text: Meta)
    requires ClockRuns(w, args.pollMs) && IsRecord(args, w, firstCount, polls) && k < |polls|
    requires forall j :: k <= j < |polls| ==> IsFinished(args, w, polls[j], text)
    ensures LastWindow(args, w, polls).changed <= polls[k].start + 1
    decreases |polls|
  {
    hide IsFinished, ClockRuns, IsRecord, LastWindow;
    if k == |polls| - 1 {
      FirstFinished(args, w, firstCount, polls, text);
    } else {
      RecordStep(args, w, firstCount, polls);
      NextFinished(args, w, firstCount, polls, text);
      FinishedWindow(args, w, firstCount, Earlier(polls), k, text);
    }
  }

  lemma NoWindow(args: Args, w: World, polls: seq<Poll>)
    requires polls == []
    ensures WindowAfter(args, w, polls).changed == 0
  {
  }

  /** No finished answer is missed: if from some poll on every poll shows it, the first poll
      at least `stableMs` later completes with it, unless the page is blocked. */
  lemma NothingIsMissed(args: Args, w: World, firstCount: nat, polls: seq<Poll>, k: nat, text: Meta)
    requires ClockRuns(w, args.pollMs) && IsRecord(args, w, firstCount, polls) && k < |polls|
    requires forall j :: k <= j < |polls| ==> IsFinished(args, w, polls[j], text)
    requires w.now(Last(polls).start + 1) >= w.now(polls[k].start + 1) + args.stableMs
    ensures Verdict(args, w, polls) == Complete(text) || (|polls| % 4 == 1 && w.blocked(Last(polls).start + 1))
  {
    hide IsRecord, WindowAfter, LastWindow, IsFinished, Verdict, ClockRuns;
    FinishedWindow(args, w, firstCount, polls, k, text);
    LastFinished(args, w, polls, text);
    ClockIsMonotone(w, args.pollMs, LastWindow(args, w, polls).changed, polls[k].start + 1);
  }

  /** In one round: if the answer waited for is there and finished, and the window has been
      stable for long enough, only the text can stand in the way, by being unreadable,
      another, or a placeholder. */
  lemma OnlyTheTextDelays(args: Args, w: World, polls: seq<Poll>)
    requires ClockRuns(w, args.pollMs) && polls != [] && Verdict(args, w, polls).NotYet?
    requires var s := Last(polls).snapshot;
      && IsBeyond(args, s) && s.text.length > 0 && !s.text.transient
      && s.generation.observed && !s.generation.active && !s.generation.stopped
      && (s.hasResponseActions == Some(true) || (s.hasResponseActions == None && w.copyButtons(Last(polls).start + 1)))
    requires w.now(Last(polls).start + 1) - w.now(LastWindow(args, w, polls).changed) >= args.stableMs as int
    ensures var p, text := Last(polls), Fetched(w, Last(polls).start + 1);
      text.length == 0 || text.hash != p.snapshot.text.hash || text.transient
  {
    ReachedIsBeyond(args, Last(polls).snapshot);
    hide Fetched, WindowAfter, TargetReached, IsBeyond;
    var t := Last(polls).start + 1;
    assert w.now(t + 1) >= w.now(t);
  }

  /** Every fourth poll, from the first, is the one that sees a blocker, and nothing else
      counts then. */
  lemma BlockedExactly(args: Args, w: World, polls: seq<Poll>)
    requires polls != []
    ensures Verdict(args, w, polls).Blocked? <==> |polls| % 4 == 1 && w.blocked(Last(polls).start + 1)
  {
    hide MetadataComplete, Confirms, IsStopped, Fetched;
  }

  lemma {:induction false} ObservedGrows(args: Args, w: World, polls: seq<Poll>)
    ensures WindowAfter(args, w, polls).observed > 0 <==>
      exists k :: 0 <= k < |polls| && TargetKey(args, polls[k].snapshot).Some?
    decreases |polls|
  {
    hide Confirms, IsStopped, Fetched, TargetReached, ActionsShown, IsBlocked;
    if polls != [] {
      ObservedGrows(args, w, Earlier(polls));
      assert polls[|polls| - 1] == Last(polls);
      assert forall k :: 0 <= k < |polls| - 1 ==> Earlier(polls)[k] == polls[k];
    }
  }

  /** When the time is over the text is given out as partial if and only if some poll had
      seen the answer waited for and it can still be read. */
  lemma PartialExactly(args: Args, w: World, polls: seq<Poll>)
    requires polls == [] || Verdict(args, w, polls).NotYet?
    ensures Ending(args, w, polls).Partial? <==>
      && Fetched(w, NextStart(args, w, polls)).length > 0
      && exists k :: 0 <= k < |polls| && IsBeyond(args, polls[k].snapshot) && polls[k].snapshot.text.length > 0
    ensures Ending(args, w, polls).Partial? || Ending(args, w, polls).TimedOut?
  {
    ObservedGrows(args, w, polls);
    hide Fetched, WindowAfter, Verdict, NextStart, TargetReached, IsBeyond;
    forall k | 0 <= k < |polls|
      ensures TargetReached(args, polls[k].snapshot) <==> IsBeyond(args, polls[k].snapshot)
    {
      ReachedIsBeyond(args, polls[k].snapshot);
    }
  }

  // ----- the loop

  /** How the loop ends on a record whose last round ended something, or after whose last
      pause the time is over. */
  function Ending(args: Args, w: World, polls: seq<Poll>): Outcome {
    if polls != [] && !Verdict(args, w, polls).NotYet? then Verdict(args, w, polls)
    else
      var text := Fetched(w, NextStart(args, w, polls));
      if WindowAfter(args, w, polls).observed > 0 && text.length > 0 then Partial(text) else Outcome.TimedOut
  }

  predicate IsOver(args: Args, w: World, polls: seq<Poll>) {
    || (polls != [] && !Verdict(args, w, polls).NotYet?)
    || w.now(NextStart(args, w, polls)) >= w.now(0) + args.timeoutMs
  }

  class WaitRun {
    const args: Args
    const world: World
    const firstCount: nat
    const probe: SingleFlightProbe
    var moment: nat
    var lastTargetKey: Option<Key>
    var lastChangedAt: nat
    var lastObservedTextLength: nat
    var latestAssistantCount: nat
    var pollIndex: nat
    ghost var polls: seq<Poll>

    constructor (args: Args, world: World, assistantCount: nat)
      ensures this.args == args && this.world == world && firstCount == assistantCount && fresh(probe)
      ensures polls == [] && moment == 0 && Coherent()
    {
      this.args, this.world, firstCount := args, world, assistantCount;
      probe := new SingleFlightProbe();
      moment, lastTargetKey, lastChangedAt, latestAssistantCount := 0, None, world.now(0), assistantCount;
      lastObservedTextLength, pollIndex, polls := 0, 0, [];
    }

    /** The loop's variables are what the record of polls makes of the page. */
    ghost predicate WindowIs(win: Window)
      reads this`lastTargetKey, this`lastChangedAt, this`lastObservedTextLength
    {
      lastTargetKey == win.key && lastChangedAt == world.now(win.changed) && lastObservedTextLength == win.observed
    }

    ghost predicate LooksOk()
      reads this`latestAssistantCount, this`pollIndex, this`polls, probe
    {
      && probe.Valid() && pollIndex == |polls|
      && IsRecord(args, world, firstCount, polls)
      && latestAssistantCount == CountAfter(polls, firstCount)
      && (probe.inFlight.Some? <==> LeftRunning(args, world, polls))
    }

    ghost predicate Coherent()
      reads this, probe
    {
      LooksOk() && WindowIs(WindowAfter(args, world, polls))
    }

    function Now(): nat
      reads this`moment
    {
      world.now(moment)
    }

    /** The single-flight probe at this moment: how it ends, and whether its work goes on. */
    method AskProbe() returns (result: ProbeResult<Option<Snapshot>>)
      requires probe.Valid()
      modifies probe
      ensures probe.Valid() && result == ProbeOutcome(args, world, moment, old(probe.inFlight.Some?))
      ensures probe.inFlight.Some? <==> LeavesRunning(args, world, Poll(moment, result, SnapshotOf(world, moment, result, 0)))
    {
      if probe.inFlight.Some? && world.settled(moment) {
        probe.Settle(probe.inFlight.value);
      }
      var elapsed := Now() - world.now(0);
      result := probe.Run(if elapsed >= args.timeoutMs as int then 0 else 1, world.race(moment));
    }

    /** The next poll may begin: the last round ended nothing, and there is time. */
    ghost predicate IsDue()
      reads this`moment, this`polls
    {
      && (polls != [] ==> Verdict(args, world, polls).NotYet?)
      && moment == NextStart(args, world, polls) && Now() < world.now(0) + args.timeoutMs
    }

    /** A poll is added to the record, and it is what the page shows. */
    method TakeSnapshot() returns (s: Snapshot)
      requires LooksOk() && IsDue()
      modifies this`moment, this`latestAssistantCount, this`pollIndex, this`polls, probe
      ensures LooksOk() && moment == old(moment) + 1 && pollIndex == |polls|
      ensures polls != [] && Earlier(polls) == old(polls) && Last(polls).start == old(moment) && Last(polls).snapshot == s
    {
      hide Verdict, NextStart, ProbeOutcome;
      var result := AskProbe();
      s := SnapshotOf(world, moment, result, latestAssistantCount);
      Grown(polls, Poll(moment, result, s));
      polls, pollIndex := polls + [Poll(moment, result, s)], pollIndex + 1;
      latestAssistantCount, moment := s.assistantTurnCount, moment + 1;
    }

    method FetchText() returns (text: Meta)
      modifies this`moment
      ensures text == Fetched(world, old(moment)) && moment == old(moment) + 1
    {
      var first := world.fetch(moment);
      moment := moment + 1;
      if first.Some? {
        return first.value;
      }
      var again := world.fetch(moment);
      return if again.Some? then again.value else NO_TEXT;
    }

    /** The change test: whether the last poll moves the window. */
    method Record(ghost win: Window, ghost p: Poll, s: Snapshot)
      requires WindowIs(win) && p.snapshot == s && p.start + 1 == moment
      modifies this`lastTargetKey, this`lastChangedAt, this`lastObservedTextLength
      ensures WindowIs(Shift(args, win, p))
    {
      var key := TargetKey(args, s);
      if key != lastTargetKey {
        lastTargetKey := key;
        lastChangedAt := Now();
      }
      if key.Some? {
        lastObservedTextLength := s.text.length;
      }
    }

    /** The text is fetched once and must still be the one the polls saw; another text
        starts the window again with it, and an unreadable one changes nothing. */
    method Confirm(ghost win: Window, ghost p: Poll, s: Snapshot, actions: bool) returns (outcome: Outcome)
      requires WindowIs(win) && p.snapshot == s && p.start + 1 == moment && actions == ActionsShown(world, p)
      modifies this`moment, this`lastTargetKey, this`lastChangedAt, this`lastObservedTextLength
      ensures moment == old(moment) + 1 && WindowIs(Restarted(args, world, win, p))
      ensures outcome == if Confirms(args, world, win, p) then Complete(Fetched(world, p.start + 1)) else NotYet
    {
      hide Fetched, ActionsShown;
      var text := FetchText();
      if text.hash == s.text.hash && IsResponseComplete(text, Now() - lastChangedAt, args.stableMs, s.generation, actions) {
        return Complete(text);
      }
      if text.length > 0 {
        lastTargetKey := Some(Key(text.length, text.hash));
        lastChangedAt := Now();
        lastObservedTextLength := text.length;
      }
      return NotYet;
    }

    /** What is made of a poll that has moved the window. */
    method Judge(ghost win: Window, ghost p: Poll, s: Snapshot) returns (outcome: Outcome)
      requires WindowIs(win) && p.snapshot == s && p.start + 1 == moment && pollIndex > 0
      requires win.key == TargetKey(args, s)
      modifies this`moment, this`lastTargetKey, this`lastChangedAt, this`lastObservedTextLength
      ensures outcome == Judged(args, world, win, pollIndex - 1, p)
      ensures moment == if Fetches(args, world, win, pollIndex - 1, p) then p.start + 2 else p.start + 1
      ensures WindowIs(if Fetches(args, world, win, pollIndex - 1, p) && !IsStopped(args, p)
                       then Restarted(args, world, win, p) else win)
    {
      hide Fetched, Confirms, Restarted;
      if (pollIndex - 1) % PAGE_STATE_POLL_STRIDE == 0 && world.blocked(moment) {
        return Blocked;
      }
      var actions := if s.hasResponseActions.Some? then s.hasResponseActions.value else world.copyButtons(moment);
      var reached := TargetReached(args, s);
      if reached && s.generation.stopped && s.text.length > 0 {
        var text := FetchText();
        return Stopped(text);
      }
      if reached && s.text.length > 0 && !s.text.transient && Now() - lastChangedAt >= args.stableMs
         && s.generation.observed && !s.generation.active && !s.generation.stopped && actions
      {
        outcome := Confirm(win, p, s, actions);
      } else {
        outcome := NotYet;
      }
    }

    /** One round of the loop, without its closing pause. */
    method Round() returns (outcome: Outcome)
      requires Coherent() && IsDue()
      modifies this, probe
      ensures Coherent() && polls != [] && Earlier(polls) == old(polls)
      ensures outcome == Verdict(args, world, polls) && moment == RoundEnd(args, world, polls)
      ensures old(moment) < moment <= old(moment) + 2
    {
      hide LooksOk, Judged, Restarted, WindowIs, IsRecord, Fetches, Shift, IsStopped;
      ghost var before := WindowAfter(args, world, polls);
      var s := TakeSnapshot();
      ghost var p := Last(polls);
      Record(before, p, s);
      ShiftedKey(before, p);
      outcome := Judge(Shift(args, before, p), p, s);
    }

    lemma ShiftedKey(win: Window, p: Poll)
      ensures Shift(args, win, p).key == TargetKey(args, p.snapshot)
    {
    }

    lemma RecordIsKept()
      requires LooksOk()
      ensures IsRecord(args, world, firstCount, polls)
    {
    }

    method Pause()
      requires ClockRuns(world, args.pollMs)
      modifies this`moment
      ensures moment == world.afterPause(old(moment)) && Now() >= old(Now()) + args.pollMs && Now() > old(Now())
    {
      moment := world.afterPause(moment);
    }

    /** `waitForMessage`: the record is the page's, it is over, and its ending is the result. */
    method Wait() returns (outcome: Outcome)
      requires polls == [] && moment == 0 && Coherent() && ClockRuns(world, args.pollMs)
      modifies this, probe
      ensures Coherent() && IsOver(args, world, polls) && outcome == Ending(args, world, polls)
      ensures outcome.Complete? ==> IsStable(args, world, polls) && outcome == Verdict(args, world, polls)
      ensures outcome.Complete? || outcome.Stopped? ==> polls != [] && IsBeyond(args, Last(polls).snapshot)
    {
      hide LooksOk, Fetched, WindowAfter, Verdict, IsRecord, IsStable, ClockRuns, IsBeyond, IsThePages;
      while Now() < world.now(0) + args.timeoutMs
        invariant Coherent() && moment == NextStart(args, world, polls)
        invariant polls != [] ==> Verdict(args, world, polls).NotYet?
        decreases world.now(0) + args.timeoutMs - Now()
      {
        ghost var begun := moment;
        outcome := Round();
        if !outcome.NotYet? {
          RecordIsKept();
          if outcome.Complete? {
            CompletionIsStable(args, world, firstCount, polls);
          }
          if outcome.Complete? || outcome.Stopped? {
            EndingWasBeyond(args, world, firstCount, polls);
          }
          return;
        }
        ClockIsMonotone(world, args.pollMs, begun, moment);
        Pause();
      }
      if lastObservedTextLength > 0 {
        var text := FetchText();
        if text.length > 0 {
          return Partial(text);
        }
      }
      return Outcome.TimedOut;
    }
  }
}
