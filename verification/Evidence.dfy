/**
 What counts as evidence that files were attached: file entries and labels that were not
 there before the hand-off, each used for one expected file.
*/
module Evidence {
  import opened Wire

  /** A file entry of the composer's input: lower-cased name and size. The signature string
      joins the two around a NUL, which no size contains, so it determines both. */
  datatype Entry = Entry(name: string, size: nat)

  datatype Baseline = Baseline(supported: bool, entries: seq<Entry>, labels: seq<string>)

  datatype Proof = InputEntry(index: nat) | Label(index: nat) | Missing

  function Count<T(==)>(s: seq<T>, x: T): nat {
    if s == [] then 0 else Count(s[..|s| - 1], x) + if s[|s| - 1] == x then 1 else 0
  }

  lemma CountGrows<T>(s: seq<T>, y: T, x: T)
    ensures Count(s + [y], x) == Count(s, x) + if y == x then 1 else 0
  {
    assert (s + [y])[..|s|] == s;
  }

  lemma {:induction false} CountOfPrefix<T>(s: seq<T>, k: nat, x: T)
    requires k <= |s|
    ensures Count(s[..k], x) <= Count(s, x)
    ensures k < |s| && s[k] == x ==> Count(s[..k], x) < Count(s, x)
    decreases |s|
  {
    if k < |s| {
      var p := s[..|s| - 1];
      assert p[..k] == s[..k];
      CountOfPrefix(p, k, x);
      if k == |s| - 1 {
        assert p == s[..k];
      }
    } else {
      assert s[..k] == s;
    }
  }

  /** `occurrence`: how often the value at `i` has been seen up to and including `i`. */
  function Occurrence<T(==)>(s: seq<T>, i: nat): nat
    requires i < |s|
  {
    Count(s[..i + 1], s[i])
  }

  predicate IsNew<T(==)>(now: seq<T>, before: seq<T>, i: nat)
    requires i < |now|
  {
    Occurrence(now, i) > Count(before, now[i])
  }

  /** `newInputIndices` and `newLabelIndices`. */
  function NewIndices<T(==)>(now: seq<T>, before: seq<T>): set<nat> {
    set i: nat | i < |now| && IsNew(now, before, i)
  }

  function NewOf<T(==)>(now: seq<T>, before: seq<T>, x: T): set<nat> {
    set i | i in NewIndices(now, before) && now[i] == x
  }

  function Above(n: nat, m: nat): nat {
    if n > m then n - m else 0
  }

  lemma NewInPrefix<T>(now: seq<T>, before: seq<T>, k: nat, i: nat)
    requires i < k <= |now|
    ensures IsNew(now[..k], before, i) <==> IsNew(now, before, i)
  {
    assert now[..k][..i + 1] == now[..i + 1];
  }

  lemma NewAtLast<T>(now: seq<T>, before: seq<T>, x: T)
    requires now != []
    ensures var k := |now| - 1;
      NewOf(now, before, x) == NewOf(now[..k], before, x) + if now[k] == x && IsNew(now, before, k) then {k} else {}
  {
    var k := |now| - 1;
    forall i: nat | i < k
      ensures IsNew(now[..k], before, i) <==> IsNew(now, before, i)
    {
      NewInPrefix(now, before, k, i);
    }
    hide IsNew;
  }

  /** The new indices of a value are a multiset difference: as many as there are more of
      it now than before. */
  lemma {:induction false} NewIsDifference<T>(now: seq<T>, before: seq<T>, x: T)
    ensures |NewOf(now, before, x)| == Above(Count(now, x), Count(before, x))
    decreases |now|
  {
    if now == [] {
      assert NewOf(now, before, x) == {};
    } else {
      var k := |now| - 1;
      NewIsDifference(now[..k], before, x);
      NewAtLast(now, before, x);
      assert now[..k + 1] == now;
      assert k !in NewOf(now[..k], before, x);
      assert IsNew(now, before, k) <==> Count(now, now[k]) > Count(before, now[k]);
      hide NewOf, NewIndices, IsNew;
    }
  }

  // ----- the matcher

  predicate StartsAt(text: string, name: string, i: nat) {
    i + |name| <= |text| && text[i..i + |name|] == name
  }

  predicate Contains(text: string, name: string) {
    exists i: nat | i <= |text| :: StartsAt(text, name, i)
  }

  predicate FitsInput(entries: seq<Entry>, recent: set<nat>, used: set<nat>, expected: Entry, i: nat) {
    i < |entries| && i !in used && i in recent && entries[i] == expected
  }

  predicate FitsLabel(labels: seq<string>, recent: set<nat>, used: set<nat>, name: string, i: nat) {
    i < |labels| && i !in used && i in recent && Contains(labels[i], name)
  }

  function NewLabels(labels: seq<string>, baseline: Baseline): set<nat> {
    if baseline.supported then NewIndices(labels, baseline.labels) else {}
  }

  /** What one proof has to show for one expected file. */
  predicate Shows(entries: seq<Entry>, labels: seq<string>, baseline: Baseline, expected: Entry, p: Proof) {
    match p
    case InputEntry(i) => i < |entries| && i in NewIndices(entries, baseline.entries) && entries[i] == expected
    case Label(i) => i < |labels| && i in NewLabels(labels, baseline) && Contains(labels[i], expected.name)
    case Missing => true
  }

  ghost predicate Injective(proofs: seq<Proof>) {
    forall i, j :: 0 <= i < j < |proofs| && proofs[i] == proofs[j] ==> proofs[i].Missing?
  }

  function UsedInputs(proofs: seq<Proof>): set<nat> {
    set i | 0 <= i < |proofs| && proofs[i].InputEntry? :: proofs[i].index
  }

  function UsedLabels(proofs: seq<Proof>): set<nat> {
    set i | 0 <= i < |proofs| && proofs[i].Label? :: proofs[i].index
  }

  method FindInput(entries: seq<Entry>, recent: set<nat>, used: set<nat>, expected: Entry) returns (found: Option<nat>)
    ensures found.Some? ==> FitsInput(entries, recent, used, expected, found.value)
    ensures found.Some? ==> forall i: nat :: i < found.value ==> !FitsInput(entries, recent, used, expected, i)
    ensures found.None? ==> forall i: nat :: !FitsInput(entries, recent, used, expected, i)
  {
    var i := 0;
    while i < |entries|
      invariant 0 <= i <= |entries|
      invariant forall k: nat :: k < i ==> !FitsInput(entries, recent, used, expected, k)
    {
      if i !in used && i in recent && entries[i] == expected {
        return Some(i);
      }
      i := i + 1;
    }
    return None;
  }

  method FindLabel(labels: seq<string>, recent: set<nat>, used: set<nat>, name: string) returns (found: Option<nat>)
    ensures found.Some? ==> FitsLabel(labels, recent, used, name, found.value)
    ensures found.Some? ==> forall i: nat :: i < found.value ==> !FitsLabel(labels, recent, used, name, i)
    ensures found.None? ==> forall i: nat :: !FitsLabel(labels, recent, used, name, i)
  {
    var i := 0;
    while i < |labels|
      invariant 0 <= i <= |labels|
      invariant forall k: nat :: k < i ==> !FitsLabel(labels, recent, used, name, k)
    {
      if i !in used && i in recent && Contains(labels[i], name) {
        return Some(i);
      }
      i := i + 1;
    }
    return None;
  }

  /** The input holds everything it held before and every expected file besides. */
  ghost predicate HoldsAll(entries: seq<Entry>, before: seq<Entry>, expected: seq<Entry>) {
    forall e: Entry :: e in expected ==> Count(entries, e) >= Count(before, e) + Count(expected, e)
  }

  function UsedOf<T(==)>(entries: seq<T>, used: set<nat>, e: T): set<nat> {
    set i | i in used && i < |entries| && entries[i] == e
  }

  /** As long as every earlier file took an input entry, the next one finds one left. */
  lemma EntryIsLeft(entries: seq<Entry>, before: seq<Entry>, expected: seq<Entry>, j: nat, used: set<nat>)
    requires HoldsAll(entries, before, expected) && j < |expected|
    requires |UsedOf(entries, used, expected[j])| == Count(expected[..j], expected[j])
    ensures exists i: nat :: FitsInput(entries, NewIndices(entries, before), used, expected[j], i)
  {
    var e := expected[j];
    var news := NewOf(entries, before, e);
    NewIsDifference(entries, before, e);
    CountOfPrefix(expected, j, e);
    if news <= UsedOf(entries, used, e) {
      SubsetIsSmaller(news, UsedOf(entries, used, e));
      assert false;
    }
    var i :| i in news && i !in UsedOf(entries, used, e);
    assert FitsInput(entries, NewIndices(entries, before), used, e, i);
  }

  lemma {:induction false} SubsetIsSmaller(a: set<nat>, b: set<nat>)
    requires a <= b
    ensures |a| <= |b|
    decreases |a|
  {
    if a != {} {
      var x :| x in a;
      SubsetIsSmaller(a - {x}, b - {x});
    }
  }

  lemma UsingGrows(entries: seq<Entry>, used: set<nat>, i: nat, e: Entry)
    requires i < |entries| && i !in used
    ensures |UsedOf(entries, used + {i}, e)| == |UsedOf(entries, used, e)| + if entries[i] == e then 1 else 0
  {
    if entries[i] == e {
      assert UsedOf(entries, used + {i}, e) == UsedOf(entries, used, e) + {i};
    } else {
      assert UsedOf(entries, used + {i}, e) == UsedOf(entries, used, e);
    }
  }

  /** The used entries are, by value, these files. */
  ghost predicate UsesAll(entries: seq<Entry>, used: set<nat>, files: seq<Entry>) {
    forall e: Entry :: |UsedOf(entries, used, e)| == Count(files, e)
  }

  lemma UsingOne(entries: seq<Entry>, used: set<nat>, files: seq<Entry>, i: nat)
    requires i < |entries| && i !in used
    ensures UsesAll(entries, used, files) ==> UsesAll(entries, used + {i}, files + [entries[i]])
  {
    if UsesAll(entries, used, files) {
      forall e: Entry
        ensures |UsedOf(entries, used + {i}, e)| == Count(files + [entries[i]], e)
      {
        UsingGrows(entries, used, i, e);
        CountGrows(files, entries[i], e);
      }
    }
  }

  /** One more proof keeps them distinct if its evidence was not used before. */
  lemma ProofsGrow(proofs: seq<Proof>, p: Proof)
    requires Injective(proofs)
    requires p.InputEntry? ==> p.index !in UsedInputs(proofs)
    requires p.Label? ==> p.index !in UsedLabels(proofs)
    ensures Injective(proofs + [p])
    ensures UsedInputs(proofs + [p]) == UsedInputs(proofs) + if p.InputEntry? then {p.index} else {}
    ensures UsedLabels(proofs + [p]) == UsedLabels(proofs) + if p.Label? then {p.index} else {}
  {
    var more := proofs + [p];
    assert forall i :: 0 <= i < |proofs| ==> more[i] == proofs[i];
    assert more[|proofs|] == p;
    forall i | 0 <= i < |proofs|
      ensures proofs[i].InputEntry? ==> proofs[i].index in UsedInputs(proofs)
      ensures proofs[i].Label? ==> proofs[i].index in UsedLabels(proofs)
    {
    }
  }

  /** The evidence counted by value: of any one text or file entry, no more pieces are used
      than there are more of it now than at the baseline. */
  ghost predicate WithinDifference(entries: seq<Entry>, labels: seq<string>, baseline: Baseline, proofs: seq<Proof>) {
    && (forall e :: |UsedOf(entries, UsedInputs(proofs), e)| <= Above(Count(entries, e), Count(baseline.entries, e)))
    && (forall x :: |UsedOf(labels, UsedLabels(proofs), x)| <= Above(Count(labels, x), Count(baseline.labels, x)))
  }

  lemma UsedWithinDifference<T>(now: seq<T>, before: seq<T>, used: set<nat>, x: T)
    requires used <= NewIndices(now, before)
    ensures |UsedOf(now, used, x)| <= Above(Count(now, x), Count(before, x))
  {
    NewIsDifference(now, before, x);
    hide NewIndices, Count;
    assert UsedOf(now, used, x) <= NewOf(now, before, x);
    SubsetIsSmaller(UsedOf(now, used, x), NewOf(now, before, x));
  }

  lemma UsedAreNew(entries: seq<Entry>, labels: seq<string>, baseline: Baseline, expected: seq<Entry>, proofs: seq<Proof>)
    requires |proofs| == |expected|
    requires forall j :: 0 <= j < |expected| ==> Shows(entries, labels, baseline, expected[j], proofs[j])
    ensures UsedInputs(proofs) <= NewIndices(entries, baseline.entries)
    ensures UsedLabels(proofs) <= NewIndices(labels, baseline.labels)
  {
    hide NewIndices, Contains;
    forall i | i in UsedInputs(proofs)
      ensures i in NewIndices(entries, baseline.entries)
    {
      var j :| 0 <= j < |proofs| && proofs[j].InputEntry? && proofs[j].index == i;
      assert Shows(entries, labels, baseline, expected[j], proofs[j]);
    }
    forall i | i in UsedLabels(proofs)
      ensures i in NewIndices(labels, baseline.labels)
    {
      var j :| 0 <= j < |proofs| && proofs[j].Label? && proofs[j].index == i;
      assert Shows(entries, labels, baseline, expected[j], proofs[j]);
    }
  }

  /** Whatever the matcher finds is a multiset difference against its baseline. */
  lemma EvidenceIsDifference(entries: seq<Entry>, labels: seq<string>, baseline: Baseline, expected: seq<Entry>, proofs: seq<Proof>)
    requires |proofs| == |expected|
    requires forall j :: 0 <= j < |expected| ==> Shows(entries, labels, baseline, expected[j], proofs[j])
    ensures WithinDifference(entries, labels, baseline, proofs)
  {
    hide Shows, NewIndices, UsedInputs, UsedLabels, UsedOf, Count, Above;
    UsedAreNew(entries, labels, baseline, expected, proofs);
    forall e: Entry
      ensures |UsedOf(entries, UsedInputs(proofs), e)| <= Above(Count(entries, e), Count(baseline.entries, e))
    {
      UsedWithinDifference(entries, baseline.entries, UsedInputs(proofs), e);
    }
    forall x: string
      ensures |UsedOf(labels, UsedLabels(proofs), x)| <= Above(Count(labels, x), Count(baseline.labels, x))
    {
      UsedWithinDifference(labels, baseline.labels, UsedLabels(proofs), x);
    }
  }

  /** The order in which evidence is looked for: entries, then labels, then none. */
  predicate Sooner(q: Proof, p: Proof) {
    match p
    case InputEntry(i) => q.InputEntry? && q.index < i
    case Label(i) => q.InputEntry? || (q.Label? && q.index < i)
    case Missing => !q.Missing?
  }

  /** Whatever would have shown this file sooner is used by an earlier one. */
  ghost predicate Foremost(entries: seq<Entry>, labels: seq<string>, baseline: Baseline, expected: Entry,
                           earlier: seq<Proof>, p: Proof) {
    forall q: Proof :: Shows(entries, labels, baseline, expected, q) && Sooner(q, p) ==> q in earlier
  }

  /** Each file takes the first piece of evidence the earlier ones have left; in particular
      none is called missing as long as anything is left that shows it. */
  ghost predicate Greedy(entries: seq<Entry>, labels: seq<string>, baseline: Baseline, expected: seq<Entry>, proofs: seq<Proof>)
    requires |proofs| == |expected|
  {
    forall j :: 0 <= j < |expected| ==> Foremost(entries, labels, baseline, expected[j], proofs[..j], proofs[j])
  }

  lemma UsedAreTaken(proofs: seq<Proof>)
    ensures forall i :: i in UsedInputs(proofs) ==> InputEntry(i) in proofs
    ensures forall i :: i in UsedLabels(proofs) ==> Label(i) in proofs
  {
    forall i | i in UsedInputs(proofs)
      ensures InputEntry(i) in proofs
    {
      var k :| 0 <= k < |proofs| && proofs[k].InputEntry? && proofs[k].index == i;
      assert proofs[k] == InputEntry(i);
    }
    forall i | i in UsedLabels(proofs)
      ensures Label(i) in proofs
    {
      var k :| 0 <= k < |proofs| && proofs[k].Label? && proofs[k].index == i;
      assert proofs[k] == Label(i);
    }
  }

  lemma GreedyGrows(entries: seq<Entry>, labels: seq<string>, baseline: Baseline, files: seq<Entry>, expected: Entry,
                    proofs: seq<Proof>, p: Proof)
    requires |proofs| == |files| && Greedy(entries, labels, baseline, files, proofs)
    requires Foremost(entries, labels, baseline, expected, proofs, p)
    ensures Greedy(entries, labels, baseline, files + [expected], proofs + [p])
  {
    hide Foremost;
    var more, all := proofs + [p], files + [expected];
    forall j | 0 <= j < |all|
      ensures Foremost(entries, labels, baseline, all[j], more[..j], more[j])
    {
      assert more[..j] == proofs[..j];
    }
  }

  /** What the matcher makes of the files: a proof for each that shows it, none used twice,
      each the first that the earlier files have left. */
  ghost predicate Matched(entries: seq<Entry>, labels: seq<string>, baseline: Baseline, expected: seq<Entry>, proofs: seq<Proof>) {
    && |proofs| == |expected| && Injective(proofs)
    && (forall j :: 0 <= j < |expected| ==> Shows(entries, labels, baseline, expected[j], proofs[j]))
    && Greedy(entries, labels, baseline, expected, proofs)
  }

  /** The greedy matcher of `readAttachmentReadiness`. Whatever it calls visible has its own
      new piece of evidence, and of no text or entry is more used than came since the
      baseline; and if the input holds the baseline and all expected files, it finds every
      one of them there. */
  method MatchFiles(entries: seq<Entry>, labels: seq<string>, baseline: Baseline, expected: seq<Entry>)
    returns (proofs: seq<Proof>)
    ensures Matched(entries, labels, baseline, expected, proofs)
    ensures WithinDifference(entries, labels, baseline, proofs)
    ensures HoldsAll(entries, baseline.entries, expected) ==> forall j :: 0 <= j < |expected| ==> proofs[j].InputEntry?
  {
    hide Greedy;
    proofs := Match(entries, labels, baseline, expected);
    EvidenceIsDifference(entries, labels, baseline, expected, proofs);
  }

  /** A proof of this file that the earlier ones have left. */
  ghost predicate IsNext(entries: seq<Entry>, labels: seq<string>, baseline: Baseline, expected: Entry, proofs: seq<Proof>, p: Proof) {
    && Shows(entries, labels, baseline, expected, p)
    && (p.InputEntry? ==> p.index !in UsedInputs(proofs))
    && (p.Label? ==> p.index !in UsedLabels(proofs))
    && Foremost(entries, labels, baseline, expected, proofs, p)
  }

  lemma MatchedGrows(entries: seq<Entry>, labels: seq<string>, baseline: Baseline, files: seq<Entry>, expected: Entry,
                     proofs: seq<Proof>, p: Proof)
    requires Matched(entries, labels, baseline, files, proofs) && IsNext(entries, labels, baseline, expected, proofs, p)
    ensures Matched(entries, labels, baseline, files + [expected], proofs + [p])
    ensures UsedInputs(proofs + [p]) == UsedInputs(proofs) + if p.InputEntry? then {p.index} else {}
    ensures UsedLabels(proofs + [p]) == UsedLabels(proofs) + if p.Label? then {p.index} else {}
  {
    hide Injective, UsedInputs, UsedLabels, Greedy, Foremost, Shows;
    ProofsGrow(proofs, p);
    GreedyGrows(entries, labels, baseline, files, expected, proofs, p);
  }

  /** The search for one file: an entry first, then a label. */
  method FindProof(entries: seq<Entry>, labels: seq<string>, newInputs: set<nat>, newLabels: set<nat>,
                   usedInputs: set<nat>, usedLabels: set<nat>, expected: Entry,
                   ghost baseline: Baseline, ghost proofs: seq<Proof>)
    returns (p: Proof)
    requires newInputs == NewIndices(entries, baseline.entries) && newLabels == NewLabels(labels, baseline)
    requires usedInputs == UsedInputs(proofs) && usedLabels == UsedLabels(proofs)
    ensures IsNext(entries, labels, baseline, expected, proofs, p)
    ensures p.InputEntry? || forall i: nat :: !FitsInput(entries, newInputs, usedInputs, expected, i)
  {
    hide UsedInputs, UsedLabels, NewIndices, NewLabels, Contains;
    UsedAreTaken(proofs);
    var input := FindInput(entries, newInputs, usedInputs, expected);
    if input.Some? {
      p := InputEntry(input.value);
    } else {
      var word := FindLabel(labels, newLabels, usedLabels, expected.name);
      p := if word.Some? then Label(word.value) else Missing;
    }
    forall q: Proof | Shows(entries, labels, baseline, expected, q) && Sooner(q, p)
      ensures q in proofs
    {
      if q.InputEntry? {
        assert !FitsInput(entries, newInputs, usedInputs, expected, q.index);
      } else {
        assert !FitsLabel(labels, newLabels, usedLabels, expected.name, q.index);
      }
    }
  }

  method Match(entries: seq<Entry>, labels: seq<string>, baseline: Baseline, expected: seq<Entry>)
    returns (proofs: seq<Proof>)
    ensures Matched(entries, labels, baseline, expected, proofs)
    ensures HoldsAll(entries, baseline.entries, expected) ==> forall j :: 0 <= j < |expected| ==> proofs[j].InputEntry?
  {
    NothingUsed(entries, labels, baseline);
    hide Matched, UsedInputs, UsedLabels, HoldsAll, UsesAll, NewIndices, NewLabels;
    var newInputs := NewIndices(entries, baseline.entries);
    var newLabels := NewLabels(labels, baseline);
    var usedInputs: set<nat>, usedLabels: set<nat> := {}, {};
    proofs := [];
    var j := 0;
    assert expected[..0] == [];
    while j < |expected|
      invariant 0 <= j == |proofs| <= |expected|
      invariant Matched(entries, labels, baseline, expected[..j], proofs)
      invariant usedInputs == UsedInputs(proofs) && usedLabels == UsedLabels(proofs)
      invariant HoldsAll(entries, baseline.entries, expected) ==>
        (forall k :: 0 <= k < j ==> proofs[k].InputEntry?) && UsesAll(entries, usedInputs, expected[..j])
    {
      assert expected[..j + 1] == expected[..j] + [expected[j]];
      var p := FindProof(entries, labels, newInputs, newLabels, usedInputs, usedLabels, expected[j], baseline, proofs);
      MatchedGrows(entries, labels, baseline, expected[..j], expected[j], proofs, p);
      if HoldsAll(entries, baseline.entries, expected) {
        StillHolds(entries, baseline.entries, expected, j, usedInputs, p);
      }
      match p {
        case InputEntry(i) => usedInputs := usedInputs + {i};
        case Label(i) => usedLabels := usedLabels + {i};
        case Missing =>
      }
      proofs := proofs + [p];
      j := j + 1;
    }
    assert expected[..j] == expected;
  }

  lemma StillHolds(entries: seq<Entry>, before: seq<Entry>, expected: seq<Entry>, j: nat, used: set<nat>, p: Proof)
    requires HoldsAll(entries, before, expected) && j < |expected| && UsesAll(entries, used, expected[..j])
    requires p.InputEntry? ==> p.index < |entries| && p.index !in used && entries[p.index] == expected[j]
    requires p.InputEntry? || forall i: nat :: !FitsInput(entries, NewIndices(entries, before), used, expected[j], i)
    ensures p.InputEntry? && UsesAll(entries, used + {p.index}, expected[..j] + [expected[j]])
  {
    hide HoldsAll, NewIndices, Count, UsedOf;
    EntryIsLeft(entries, before, expected, j, used);
    UsingOne(entries, used, expected[..j], p.index);
  }

  lemma NothingUsed(entries: seq<Entry>, labels: seq<string>, baseline: Baseline)
    ensures Matched(entries, labels, baseline, [], []) && UsedInputs([]) == {} && UsedLabels([]) == {}
    ensures UsesAll(entries, {}, [])
  {
    assert forall e: Entry :: UsedOf(entries, {}, e) == {};
  }

  // ----- labels before and after are not written alike
  //
  // The baseline stores a label with its white space squeezed and drops it when nothing is
  // left; the readiness check compares the label as it stands. Both are lower-cased.

  /** Runs of white space become one space, and none leads. */
  function Collapse(text: string): string {
    if text == "" then ""
    else
      var before, c := Collapse(text[..|text| - 1]), text[|text| - 1];
      if !IsBlank(c) then before + [c]
      else if before == "" || before[|before| - 1] == ' ' then before
      else before + [' ']
  }

  /** `replace(/\s+/g, " ").trim()`. */
  function Squeeze(text: string): string {
    var s := Collapse(text);
    if s != "" && s[|s| - 1] == ' ' then s[..|s| - 1] else s
  }

  predicate IsSqueezed(text: string) {
    text != "" && Squeeze(text) == text
  }

  /** How the baseline records the labels on the page. */
  function Recorded(labels: seq<string>): seq<string> {
    if labels == [] then []
    else
      var rest, last := Recorded(labels[..|labels| - 1]), Squeeze(labels[|labels| - 1]);
      if last == "" then rest else rest + [last]
  }

  /** The label of an element that has text but neither an `aria-label` nor a title. */
  function PlainLabel(text: string): string {
    text + "  "
  }

  predicate SpacedSingly(text: string) {
    && (text != "" ==> !IsBlank(text[0]))
    && (forall i :: 0 <= i < |text| && IsBlank(text[i]) ==> text[i] == ' ')
    && (forall i :: 0 <= i < |text| - 1 ==> !(IsBlank(text[i]) && IsBlank(text[i + 1])))
  }

  lemma {:induction false} CollapseIsSpacedSingly(text: string)
    ensures SpacedSingly(Collapse(text))
  {
    if text != "" {
      CollapseIsSpacedSingly(text[..|text| - 1]);
    }
  }

  lemma {:induction false} SpacedSinglyIsCollapsed(text: string)
    requires SpacedSingly(text)
    ensures Collapse(text) == text
  {
    if text != "" {
      var p := text[..|text| - 1];
      SpacedSinglyIsCollapsed(p);
      assert text == p + [text[|text| - 1]];
      if IsBlank(text[|text| - 1]) {
        assert p != "" && !IsBlank(text[|text| - 2]);
      }
    }
  }

  lemma SqueezeOnce(text: string)
    ensures Squeeze(Squeeze(text)) == Squeeze(text)
    ensures Squeeze(text) != "" ==> !IsBlank(Squeeze(text)[|Squeeze(text)| - 1])
  {
    CollapseIsSpacedSingly(text);
    SpacedSinglyIsCollapsed(Squeeze(text));
  }

  /** What is left of a text without its white space. */
  function Letters(text: string): string {
    if text == "" then ""
    else Letters(text[..|text| - 1]) + if IsBlank(text[|text| - 1]) then "" else [text[|text| - 1]]
  }

  lemma LettersGrow(text: string, c: char)
    ensures Letters(text + [c]) == Letters(text) + if IsBlank(c) then "" else [c]
  {
    assert (text + [c])[..|text|] == text;
  }

  lemma {:induction false} CollapseKeepsLetters(text: string)
    ensures Letters(Collapse(text)) == Letters(text)
  {
    if text != "" {
      var before, c := Collapse(text[..|text| - 1]), text[|text| - 1];
      CollapseKeepsLetters(text[..|text| - 1]);
      LettersGrow(before, c);
      LettersGrow(before, ' ');
    }
  }

  lemma SqueezeKeepsLetters(text: string)
    ensures Letters(Squeeze(text)) == Letters(text)
  {
    var s := Collapse(text);
    CollapseKeepsLetters(text);
    hide Collapse;
    if s != "" && s[|s| - 1] == ' ' {
      LettersGrow(s[..|s| - 1], ' ');
      assert s == s[..|s| - 1] + [' '];
    }
  }

  lemma SqueezedIsSpacedSingly(text: string)
    ensures IsSqueezed(text) <==> text != "" && SpacedSingly(text) && !IsBlank(text[|text| - 1])
  {
    SqueezeOnce(text);
    CollapseIsSpacedSingly(text);
    if SpacedSingly(text) {
      SpacedSinglyIsCollapsed(text);
    }
    hide Collapse;
  }

  /** Squeezing changes white space only, and is finished when single spaces separate what
      is left. */
  lemma SqueezingIs(text: string)
    ensures Letters(Squeeze(text)) == Letters(text)
    ensures IsSqueezed(text) <==> text != "" && SpacedSingly(text) && !IsBlank(text[|text| - 1])
  {
    hide Squeeze, Letters, SpacedSingly;
    SqueezeKeepsLetters(text);
    SqueezedIsSpacedSingly(text);
  }

  lemma {:induction false} RecordedAreSqueezed(labels: seq<string>, x: string)
    ensures !IsSqueezed(x) ==> Count(Recorded(labels), x) == 0
  {
    if labels != [] {
      var rest, last := Recorded(labels[..|labels| - 1]), Squeeze(labels[|labels| - 1]);
      RecordedAreSqueezed(labels[..|labels| - 1], x);
      SqueezeOnce(labels[|labels| - 1]);
      CountGrows(rest, last, x);
    }
  }

  lemma {:induction false} SqueezedAreRecorded(labels: seq<string>)
    requires forall i :: 0 <= i < |labels| ==> IsSqueezed(labels[i])
    ensures Recorded(labels) == labels
  {
    if labels != [] {
      SqueezedAreRecorded(labels[..|labels| - 1]);
      assert labels == labels[..|labels| - 1] + [labels[|labels| - 1]];
    }
  }

  lemma NothingIsNew<T>(s: seq<T>)
    ensures NewIndices(s, s) == {}
  {
    forall i: nat | i < |s|
      ensures !IsNew(s, s, i)
    {
      CountOfPrefix(s, i + 1, s[i]);
    }
  }

  lemma SqueezedLabelsAreOld(labels: seq<string>)
    requires forall i :: 0 <= i < |labels| ==> IsSqueezed(labels[i])
    ensures NewIndices(labels, Recorded(labels)) == {}
  {
    SqueezedAreRecorded(labels);
    hide IsSqueezed, Recorded;
    NothingIsNew(labels);
  }

  lemma LooseLabelIsNew(labels: seq<string>, i: nat)
    requires i < |labels| && !IsSqueezed(labels[i])
    ensures i in NewIndices(labels, Recorded(labels))
  {
    hide IsSqueezed, Recorded;
    RecordedAreSqueezed(labels, labels[i]);
    assert labels[..i + 1] == labels[..i] + [labels[i]];
    CountGrows(labels[..i], labels[i], labels[i]);
  }

  /** On a page that has not changed since the baseline, no label counts as new if and only
      if every label is written without surplus white space. */
  lemma UnchangedLabelsAreOld(labels: seq<string>)
    ensures NewIndices(labels, Recorded(labels)) == {} <==> forall i :: 0 <= i < |labels| ==> IsSqueezed(labels[i])
  {
    hide IsSqueezed, Recorded, NewIndices;
    if forall i :: 0 <= i < |labels| ==> IsSqueezed(labels[i]) {
      SqueezedLabelsAreOld(labels);
    } else {
      var i: nat :| i < |labels| && !IsSqueezed(labels[i]);
      LooseLabelIsNew(labels, i);
    }
  }

  predicate AllSqueezed(labels: seq<string>) {
    forall i :: 0 <= i < |labels| ==> IsSqueezed(labels[i])
  }

  /** Judging against the recorded baseline never takes an old label for a new one, whatever
      the page shows later, if and only if every label of the baseline is written without
      surplus white space. */
  lemma RecordedJudgesExactly(before: seq<string>)
    ensures (forall now :: NewIndices(now, Recorded(before)) <= NewIndices(now, before)) <==> AllSqueezed(before)
  {
    hide IsSqueezed, Recorded, NewIndices;
    if AllSqueezed(before) {
      SqueezedAreRecorded(before);
    } else {
      UnchangedLabelsAreOld(before);
      NothingIsNew(before);
      assert !(NewIndices(before, Recorded(before)) <= NewIndices(before, before));
    }
  }

  /** A baseline that was not taken never takes an old entry for a new one, whatever the
      page shows later, if and only if there was none. */
  lemma EmptyJudgesExactly<T(!new)>(page: seq<T>)
    ensures (forall now: seq<T> :: NewIndices(now, []) <= NewIndices(now, page)) <==> page == []
  {
    hide NewIndices;
    if page != [] {
      NothingIsNew(page);
      FirstIsNew(page);
      assert !(NewIndices(page, []) <= NewIndices(page, page));
    }
  }

  lemma FirstIsNew<T>(now: seq<T>)
    requires now != []
    ensures 0 in NewIndices(now, [])
  {
    assert now[..1] == [] + [now[0]];
    CountGrows([], now[0], now[0]);
  }

  lemma PlainLabelIsNotSqueezed(name: string)
    ensures !IsSqueezed(PlainLabel(name))
  {
    hide Squeeze;
    SqueezeOnce(PlainLabel(name));
  }

  lemma PlainLabelContains(name: string)
    ensures Contains(PlainLabel(name), name)
  {
    assert StartsAt(PlainLabel(name), name, 0);
  }

  /** So a file chip that was there all along, with no `aria-label` and no title, is taken
      for evidence of a file of that name, although nothing on the page has changed. */
  lemma StaleChipIsTakenForNew(name: string, size: nat)
    ensures var labels := [PlainLabel(name)]; var baseline := Baseline(true, [], Recorded(labels));
      Shows([], labels, baseline, Entry(name, size), Label(0))
  {
    hide Recorded, PlainLabel, Contains;
    PlainLabelIsNotSqueezed(name);
    PlainLabelContains(name);
    LooseLabelIsNew([PlainLabel(name)], 0);
  }
}
