/**
 `selectChatPopoverEffort`: a bounded search over a slider that moves by key presses, and
 its restore. The page is an oracle: what a look shows may depend on everything done to
 the page so far, in any way.
*/
module Slider {
  import opened Wire

  datatype Range = Range(minimum: int, maximum: int, current: int)

  /** The only sliders `readChatPopover` reports. */
  type Track = r: Range | r.minimum < r.maximum && r.maximum - r.minimum < 32 && r.minimum <= r.current <= r.maximum
    witness Range(0, 1, 0)

  datatype Snapshot = Snapshot(slider: Option<Track>, effort: Option<string>)

  datatype Action = Look | Aim | Press(step: int) | Switch

  type Log = seq<Action>

  /** What the page shows to a look, whether the observed control can still be aimed at,
      and what switching the view shows, each after the actions so far. */
  datatype Page = Page(look: Log -> Option<Snapshot>, aims: Log -> bool, switch: Log -> Option<Snapshot>)

  const ATTEMPTS := 32

  function Presses(log: Log): nat {
    if log == [] then 0 else Presses(log[..|log| - 1]) + if log[|log| - 1].Press? then 1 else 0
  }

  /** How far the presses have moved a slider that obeys them. */
  function Net(log: Log): int {
    if log == [] then 0 else Net(log[..|log| - 1]) + if log[|log| - 1].Press? then log[|log| - 1].step else 0
  }

  lemma LogGrows(log: Log, a: Action)
    ensures Presses(log + [a]) == Presses(log) + if a.Press? then 1 else 0
    ensures Net(log + [a]) == Net(log) + if a.Press? then a.step else 0
  {
    assert (log + [a])[..|log|] == log;
  }

  // ----- an arbitrary page

  predicate SameTrack(a: Track, b: Track) {
    a.minimum == b.minimum && a.maximum == b.maximum
  }

  predicate Moved(before: Option<Snapshot>, after: Option<Snapshot>, step: int) {
    && before.Some? && before.value.slider.Some? && after.Some? && after.value.slider.Some?
    && SameTrack(before.value.slider.value, after.value.slider.value)
    && after.value.slider.value.current == before.value.slider.value.current + step
  }

  /** The press at `i` was made on a control that had just been found to be still there. */
  predicate IsAimed(page: Page, log: Log, i: nat)
    requires i < |log|
  {
    i >= 1 && log[i - 1] == Aim && page.aims(log[..i - 1])
  }

  /** The press at `i` was aimed at what a look had just shown, and the next look showed
      the same track exactly one notch on. */
  predicate Confirmed(page: Page, log: Log, i: nat)
    requires i < |log| && log[i].Press?
  {
    && 2 <= i < |log| - 1 && log[i - 2] == Look && IsAimed(page, log, i) && log[i + 1] == Look
    && (log[i].step == 1 || log[i].step == -1)
    && Moved(page.look(log[..i - 2]), page.look(log[..i + 1]), log[i].step)
  }

  ghost predicate AllConfirmed(page: Page, log: Log) {
    forall i: nat :: i < |log| && log[i].Press? ==> Confirmed(page, log, i)
  }

  /** Every press is aimed, and one that is not seen to move the slider by exactly one notch
      is the last one. */
  ghost predicate StopsWhenUnsure(page: Page, log: Log) {
    && (forall i: nat :: i < |log| && log[i].Press? ==> IsAimed(page, log, i))
    && (forall i: nat, j :: i < j < |log| && log[i].Press? && log[j].Press? ==> Confirmed(page, log, i))
  }

  lemma AimedStays(page: Page, log: Log, more: Log, i: nat)
    requires i < |log|
    ensures IsAimed(page, log + more, i) <==> IsAimed(page, log, i)
  {
    if i >= 1 {
      assert (log + more)[..i - 1] == log[..i - 1];
    }
  }

  lemma ConfirmedStays(page: Page, log: Log, more: Log, i: nat)
    requires i < |log| && log[i].Press? && Confirmed(page, log, i)
    ensures Confirmed(page, log + more, i)
  {
    AimedStays(page, log, more, i);
    assert (log + more)[..i + 1] == log[..i + 1];
    assert (log + more)[..i - 2] == log[..i - 2];
  }

  lemma QuietKeeps(page: Page, log: Log, a: Action)
    requires !a.Press?
    ensures AllConfirmed(page, log) ==> AllConfirmed(page, log + [a])
    ensures StopsWhenUnsure(page, log) ==> StopsWhenUnsure(page, log + [a])
  {
    forall i: nat | i < |log| && log[i].Press?
      ensures IsAimed(page, log, i) ==> IsAimed(page, log + [a], i)
      ensures Confirmed(page, log, i) ==> Confirmed(page, log + [a], i)
    {
      AimedStays(page, log, [a], i);
      if Confirmed(page, log, i) {
        ConfirmedStays(page, log, [a], i);
      }
    }
  }

  /** One more press after confirmed ones; what the next look shows decides. */
  lemma PressKeeps(page: Page, log: Log, step: int)
    requires AllConfirmed(page, log) && step in {1, -1}
    requires |log| >= 2 && log[|log| - 2] == Look && log[|log| - 1] == Aim && page.aims(log[..|log| - 1])
    ensures var log' := log + [Press(step)] + [Look];
      && StopsWhenUnsure(page, log')
      && (Moved(page.look(log[..|log| - 2]), page.look(log + [Press(step)]), step) ==> AllConfirmed(page, log'))
  {
    var log' := log + [Press(step)] + [Look];
    assert log' == log + [Press(step), Look];
    forall i: nat | i < |log| && log[i].Press?
      ensures Confirmed(page, log', i)
    {
      ConfirmedStays(page, log, [Press(step), Look], i);
    }
    assert log'[..|log| + 1] == log + [Press(step)];
    assert log'[..|log| - 1] == log[..|log| - 1];
    assert log'[..|log| - 2] == log[..|log| - 2];
  }

  // ----- a page whose slider moves one notch a key

  datatype World = World(minimum: int, maximum: int, start: int, effortAt: int -> Option<string>)

  predicate ValidWorld(w: World) {
    w.minimum < w.maximum && w.maximum - w.minimum < 32 && w.minimum <= w.start <= w.maximum
  }

  function At(w: World, log: Log): int {
    w.start + Net(log)
  }

  function Shown(w: World, position: int): Option<Snapshot>
    requires ValidWorld(w) && w.minimum <= position <= w.maximum
  {
    Some(Snapshot(Some(Range(w.minimum, w.maximum, position)), w.effortAt(position)))
  }

  ghost predicate Obeys(page: Page, w: World) {
    && ValidWorld(w)
    && forall log: Log :: w.minimum <= At(w, log) <= w.maximum ==>
         && page.look(log) == Shown(w, At(w, log))
         && page.switch(log) == Shown(w, At(w, log))
         && page.aims(log)
  }

  predicate IsMatch(w: World, labels: set<string>, v: int) {
    w.effortAt(v).Some? && w.effortAt(v).value in labels
  }

  predicate IsReadable(w: World, v: int) {
    w.effortAt(v).Some?
  }

  /** The first position from `v` up where the search stops. */
  function FirstStop(w: World, labels: set<string>, v: int): int
    decreases w.maximum - v
  {
    if v > w.maximum || !IsReadable(w, v) || IsMatch(w, labels, v) then v else FirstStop(w, labels, v + 1)
  }

  /** The initial position's effort if it matches, else the first match from the minimum
      if every position below it can be read. */
  function Expected(w: World, labels: set<string>): Option<string> {
    if !IsReadable(w, w.start) then None
    else if IsMatch(w, labels, w.start) then w.effortAt(w.start)
    else
      var stop := FirstStop(w, labels, w.minimum);
      if stop <= w.maximum && IsMatch(w, labels, stop) then w.effortAt(stop) else None
  }

  predicate Stays(w: World, labels: set<string>) {
    !IsReadable(w, w.start) || IsMatch(w, labels, w.start)
  }

  /** Where the search leaves the slider, before any restore. */
  function Stopped(w: World, labels: set<string>): int {
    if Stays(w, labels) then w.start
    else var stop := FirstStop(w, labels, w.minimum); if stop > w.maximum then w.maximum else stop
  }

  function SearchPresses(w: World, labels: set<string>): int {
    if Stays(w, labels) then 0 else w.start - w.minimum + Stopped(w, labels) - w.minimum
  }

  function Distance(a: int, b: int): nat {
    if a <= b then b - a else a - b
  }

  lemma {:induction false} FirstStopBounds(w: World, labels: set<string>, v: int)
    requires v <= w.maximum + 1
    ensures v <= FirstStop(w, labels, v) <= w.maximum + 1
    ensures forall u :: v <= u < FirstStop(w, labels, v) ==> IsReadable(w, u) && !IsMatch(w, labels, u)
    decreases w.maximum - v
  {
    if v <= w.maximum && IsReadable(w, v) && !IsMatch(w, labels, v) {
      FirstStopBounds(w, labels, v + 1);
    }
  }

  lemma {:induction false} FirstStopStops(w: World, labels: set<string>, v: int)
    ensures var stop := FirstStop(w, labels, v); stop > w.maximum || !IsReadable(w, stop) || IsMatch(w, labels, stop)
    decreases w.maximum - v
  {
    if v <= w.maximum && IsReadable(w, v) && !IsMatch(w, labels, v) {
      FirstStopStops(w, labels, v + 1);
    }
  }

  /** What `Expected` means: some position is chosen only if it matches and is the initial
      one or the first match; nothing is chosen exactly if the start cannot be read, or it
      does not match and every match lies above some position that cannot be read. */
  lemma ExpectedIsFirstMatch(w: World, labels: set<string>)
    requires ValidWorld(w)
    ensures Expected(w, labels).Some? ==> var v := Stopped(w, labels);
      && w.minimum <= v <= w.maximum && IsMatch(w, labels, v) && Expected(w, labels) == w.effortAt(v)
      && (v == w.start || forall u :: w.minimum <= u < v ==> IsReadable(w, u) && !IsMatch(w, labels, u))
    ensures Expected(w, labels).None? <==>
      || !IsReadable(w, w.start)
      || (!IsMatch(w, labels, w.start)
          && forall v :: w.minimum <= v <= w.maximum && IsMatch(w, labels, v) ==>
               exists u :: w.minimum <= u < v && !IsReadable(w, u))
  {
    FirstStopBounds(w, labels, w.minimum);
    var stop := FirstStop(w, labels, w.minimum);
    FirstStopStops(w, labels, w.minimum);
    if Expected(w, labels).None? && IsReadable(w, w.start) {
      forall v | w.minimum <= v <= w.maximum && IsMatch(w, labels, v)
        ensures exists u :: w.minimum <= u < v && !IsReadable(w, u)
      {
        assert stop < v && !IsReadable(w, stop);
      }
    }
  }

  /** Up and down the track at most once each. */
  lemma SearchIsShort(w: World, labels: set<string>)
    requires ValidWorld(w)
    ensures w.minimum <= Stopped(w, labels) <= w.maximum
    ensures 0 <= SearchPresses(w, labels)
    ensures SearchPresses(w, labels) + Distance(Stopped(w, labels), w.start) <= 2 * (w.maximum - w.minimum)
  {
    FirstStopBounds(w, labels, w.minimum);
  }

  /** What a move from one position to another comes to within a number of rounds: one for
      each notch, and one more to see that it has arrived. */
  function Reached(w: World, from: int, target: int, rounds: nat): Option<Snapshot>
    requires ValidWorld(w) && w.minimum <= target <= w.maximum
  {
    if Distance(from, target) < rounds then Shown(w, target) else None
  }

  ghost predicate ReachesAll(rounds: nat) {
    forall w, from, target ::
      ValidWorld(w) && w.minimum <= from <= w.maximum && w.minimum <= target <= w.maximum ==>
        Reached(w, from, target, rounds).Some?
  }

  /** 32 rounds take the slider from anywhere to anywhere on every track the reader reports,
      and no smaller number does. */
  lemma BudgetIsTight(rounds: nat)
    ensures ReachesAll(rounds) <==> rounds >= ATTEMPTS
  {
    if rounds < ATTEMPTS {
      var w := World(0, 31, 0, _ => None);
      assert ValidWorld(w) && Reached(w, 0, 31, rounds).None?;
    }
  }

  datatype Outcome = GaveUp | Arrived(seen: Snapshot) | Pressed

  class EffortSearch {
    const page: Page
    const labels: set<string>
    ghost const world: World
    var log: Log
    var original: Option<Track>
    var found: bool
    var mayRestore: bool

    constructor (page: Page, labels: set<string>, ghost world: World)
      ensures this.page == page && this.labels == labels && this.world == world
      ensures log == [] && original.None? && !found && mayRestore
    {
      this.page, this.labels, this.world := page, labels, world;
      log, original, found, mayRestore := [], None, false, true;
    }

    ghost predicate InRange()
      reads this
    {
      world.minimum <= At(world, log) <= world.maximum
    }

    method Observe() returns (seen: Option<Snapshot>)
      modifies this`log
      ensures seen == page.look(old(log)) && log == old(log) + [Look]
      ensures Presses(log) == Presses(old(log)) && Net(log) == Net(old(log))
      ensures AllConfirmed(page, old(log)) ==> AllConfirmed(page, log) && StopsWhenUnsure(page, log)
      ensures Obeys(page, world) && old(InRange()) ==> seen == Shown(world, At(world, old(log)))
    {
      seen := page.look(log);
      LogGrows(log, Look);
      QuietKeeps(page, log, Look);
      log := log + [Look];
    }

    ghost predicate Tracks()
      reads this`original
    {
      original.Some? && original.value.minimum == world.minimum && original.value.maximum == world.maximum
    }

    /** Whether the control just observed is still there to be pressed. */
    method TakeAim() returns (aimed: bool)
      requires AllConfirmed(page, log)
      modifies this`log
      ensures aimed == page.aims(old(log)) && log == old(log) + [Aim]
      ensures Presses(log) == Presses(old(log)) && Net(log) == Net(old(log))
      ensures AllConfirmed(page, log) && StopsWhenUnsure(page, log)
      ensures Obeys(page, world) && old(InRange()) ==> aimed
    {
      aimed := page.aims(log);
      LogGrows(log, Aim);
      QuietKeeps(page, log, Aim);
      log := log + [Aim];
    }

    /** One round of `move`: look, aim, press, look again. */
    method Attempt(target: int) returns (outcome: Outcome)
      requires original.Some? && mayRestore && AllConfirmed(page, log)
      requires original.value.minimum <= target <= original.value.maximum
      modifies this`log, this`mayRestore
      ensures old(log) <= log && StopsWhenUnsure(page, log)
      ensures Presses(old(log)) <= Presses(log) <= Presses(old(log)) + 1
      ensures outcome.Arrived? ==> Presses(log) == Presses(old(log))
      ensures mayRestore ==> AllConfirmed(page, log)
      ensures !outcome.GaveUp? ==> mayRestore
      ensures outcome.Arrived? ==>
        outcome.seen.slider.Some? && outcome.seen.slider.value == original.value.(current := target)
      ensures Obeys(page, world) && old(InRange()) && Tracks() ==>
        ValidWorld(world) &&
        if old(At(world, log)) == target
        then outcome.Arrived? && Some(outcome.seen) == Shown(world, target) && At(world, log) == target
        else outcome.Pressed? && InRange() && Distance(At(world, log), target) == Distance(old(At(world, log)), target) - 1
             && Presses(log) == Presses(old(log)) + 1
    {
      hide Confirmed, AllConfirmed, StopsWhenUnsure, Presses, Net, Obeys;
      ObeysValid();
      var before := Observe();
      if before.None? || before.value.slider.None? || !SameTrack(before.value.slider.value, original.value) {
        mayRestore := false;
        return GaveUp;
      }
      var position := before.value.slider.value.current;
      if position == target {
        return Arrived(before.value);
      }
      var aimed := TakeAim();
      if !aimed {
        return GaveUp;
      }
      var delta := if target > position then 1 else -1;
      mayRestore := false;
      assert log[..|log| - 2] == old(log) && log[..|log| - 1] == old(log) + [Look];
      var after := PressOnce(delta);
      if after.None? || after.value.slider.None? || !SameTrack(after.value.slider.value, original.value)
         || after.value.slider.value.current != position + delta {
        return GaveUp;
      }
      mayRestore := true;
      return Pressed;
    }

    /** The key press itself, and what the page shows after it. */
    method PressOnce(step: int) returns (after: Option<Snapshot>)
      requires AllConfirmed(page, log) && step in {1, -1}
      requires |log| >= 2 && log[|log| - 2] == Look && log[|log| - 1] == Aim && page.aims(log[..|log| - 1])
      modifies this`log
      ensures log == old(log) + [Press(step)] + [Look] && after == page.look(old(log) + [Press(step)])
      ensures StopsWhenUnsure(page, log)
      ensures Moved(page.look(old(log)[..|old(log)| - 2]), after, step) ==> AllConfirmed(page, log)
      ensures Presses(log) == Presses(old(log)) + 1 && Net(log) == Net(old(log)) + step
      ensures Obeys(page, world) && world.minimum <= At(world, old(log)) + step <= world.maximum ==>
        after == Shown(world, At(world, old(log)) + step)
    {
      hide AllConfirmed, StopsWhenUnsure, Presses, Net, Moved;
      PressKeeps(page, log, step);
      LogGrows(log, Press(step));
      LogGrows(log + [Press(step)], Look);
      after := page.look(log + [Press(step)]);
      log := log + [Press(step)] + [Look];
    }

    lemma ObeysValid()
      ensures Obeys(page, world) ==> ValidWorld(world)
    {
    }

    /** `move`: at most 32 rounds, which takes it anywhere on the widest track. */
    method Move(target: int) returns (reached: Option<Snapshot>)
      requires original.Some? && mayRestore && AllConfirmed(page, log)
      requires original.value.minimum <= target <= original.value.maximum
      modifies this`log, this`mayRestore
      ensures old(log) <= log && StopsWhenUnsure(page, log)
      ensures Presses(log) <= Presses(old(log)) + ATTEMPTS
      ensures mayRestore ==> AllConfirmed(page, log)
      ensures reached.Some? ==>
        mayRestore && reached.value.slider.Some? && reached.value.slider.value == original.value.(current := target)
      ensures Obeys(page, world) && old(InRange()) && Tracks() ==>
        && reached == Shown(world, target) && At(world, log) == target
        && Presses(log) == Presses(old(log)) + Distance(old(At(world, log)), target)
    {
      hide AllConfirmed, StopsWhenUnsure, Obeys, Presses, Net;
      ObeysValid();
      reached := MoveWithin(target, ATTEMPTS);
    }

    /** The loop of `move` with any budget: on an obedient page it takes one round for each
        notch, and one more to see that it has arrived. */
    method MoveWithin(target: int, rounds: nat) returns (reached: Option<Snapshot>)
      requires original.Some? && mayRestore && AllConfirmed(page, log)
      requires original.value.minimum <= target <= original.value.maximum
      modifies this`log, this`mayRestore
      ensures old(log) <= log && StopsWhenUnsure(page, log)
      ensures Presses(log) <= Presses(old(log)) + rounds
      ensures mayRestore ==> AllConfirmed(page, log)
      ensures reached.Some? ==>
        mayRestore && reached.value.slider.Some? && reached.value.slider.value == original.value.(current := target)
      ensures Obeys(page, world) && old(InRange()) && Tracks() ==>
        var distance := Distance(old(At(world, log)), target);
        && ValidWorld(world)
        && reached == Reached(world, old(At(world, log)), target, rounds)
        && (distance < rounds ==> At(world, log) == target && Presses(log) == Presses(old(log)) + distance)
    {
      ghost var well := Obeys(page, world) && InRange() && Tracks();
      ghost var distance := Distance(At(world, log), target);
      var attempt := 0;
      while attempt < rounds
        invariant 0 <= attempt <= rounds && mayRestore && AllConfirmed(page, log) && old(log) <= log
        invariant StopsWhenUnsure(page, log)
        invariant Presses(log) <= Presses(old(log)) + attempt
        invariant well ==> InRange() && Distance(At(world, log), target) == distance - attempt
                           && Presses(log) == Presses(old(log)) + attempt
      {
        var outcome := Attempt(target);
        match outcome
        case GaveUp => return None;
        case Arrived(seen) => return Some(seen);
        case Pressed => attempt := attempt + 1;
      }
      return None;
    }

    /** The search proper: up from the minimum, to the first match or the first position
        whose effort cannot be read. */
    method Search(here: Option<string>) returns (chosen: Option<string>)
      requires original.Some? && mayRestore && AllConfirmed(page, log) && Presses(log) == 0 && !found
      modifies this`log, this`mayRestore, this`found
      ensures old(log) <= log && StopsWhenUnsure(page, log) && (mayRestore ==> AllConfirmed(page, log))
      ensures Presses(log) <= ATTEMPTS * (original.value.maximum - original.value.minimum + 1)
      ensures found == chosen.Some? && (chosen.Some? ==> chosen.value in labels)
      ensures Obeys(page, world) && old(At(world, log)) == world.start && Tracks() && here == world.effortAt(world.start) ==>
        && mayRestore && chosen == Expected(world, labels)
        && At(world, log) == Stopped(world, labels) && Presses(log) == SearchPresses(world, labels)
    {
      hide AllConfirmed, StopsWhenUnsure, Obeys, Presses, Net;
      ObeysValid();
      ConfirmedIsSure();
      chosen := None;
      if here.None? {
        return;
      }
      if here.value in labels {
        found := true;
        return here;
      }
      ghost var well := Obeys(page, world) && At(world, log) == world.start && Tracks() && here == world.effortAt(world.start);
      var minimum, maximum := original.value.minimum, original.value.maximum;
      var value := minimum;
      while value <= maximum
        invariant minimum <= value <= maximum + 1
        invariant old(log) <= log && mayRestore && AllConfirmed(page, log) && StopsWhenUnsure(page, log) && !found
        invariant Presses(log) <= ATTEMPTS * (value - minimum)
        invariant well ==> FirstStop(world, labels, world.minimum) == FirstStop(world, labels, value)
        invariant well ==> At(world, log) == if value == minimum then world.start else value - 1
        invariant well ==> Presses(log) == if value == minimum then 0 else world.start - minimum + value - 1 - minimum
      {
        var observed := Move(value);
        if observed.None? || observed.value.effort.None? {
          return None;
        }
        if observed.value.effort.value in labels {
          found := true;
          return observed.value.effort;
        }
        value := value + 1;
      }
    }

    lemma ConfirmedIsSure()
      ensures AllConfirmed(page, log) ==> StopsWhenUnsure(page, log)
    {
    }

    method SwitchView() returns (seen: Option<Snapshot>)
      modifies this`log
      ensures seen == page.switch(old(log)) && log == old(log) + [Switch]
      ensures Presses(log) == Presses(old(log)) && Net(log) == Net(old(log))
      ensures AllConfirmed(page, old(log)) ==> AllConfirmed(page, log)
      ensures StopsWhenUnsure(page, old(log)) ==> StopsWhenUnsure(page, log)
      ensures Obeys(page, world) && old(InRange()) ==> seen == Shown(world, At(world, old(log)))
    {
      seen := page.switch(log);
      LogGrows(log, Switch);
      QuietKeeps(page, log, Switch);
      log := log + [Switch];
    }

    /** `selectChatPopoverEffort`, with its `finally`. */
    method Select() returns (chosen: Option<string>)
      requires log == [] && original.None? && !found && mayRestore
      modifies this
      ensures StopsWhenUnsure(page, log)
      ensures Presses(log) <= ATTEMPTS * (ATTEMPTS + 1)
      ensures chosen.Some? ==> chosen.value in labels
      ensures Obeys(page, world) ==>
        && chosen == Expected(world, labels)
        && At(world, log) == (if chosen.Some? then Stopped(world, labels) else world.start)
        && Presses(log) <= 2 * (world.maximum - world.minimum)
    {
      hide AllConfirmed, StopsWhenUnsure, Obeys, Presses, Net, Stopped, SearchPresses, FirstStop;
      NothingPressed();
      ObeysValid();
      if ValidWorld(world) {
        SearchIsShort(world, labels);
      }
      var initial := Observe();
      if initial.None? {
        return None;
      }
      var simple := SwitchView();
      original := if simple.Some? then simple.value.slider else None;
      chosen := None;
      if original.Some? && simple.value.effort.Some? {
        chosen := Search(simple.value.effort);
      }
      if !found && original.Some? && mayRestore {
        var _ := Move(original.value.current);
      }
      var _ := SwitchView();
    }

    lemma NothingPressed()
      requires log == []
      ensures AllConfirmed(page, log) && StopsWhenUnsure(page, log) && Presses(log) == 0 && Net(log) == 0
    {
    }
  }
}
