/**
 When the greedy matcher finds everything there is to find. It goes through the files in
 their order and never takes a piece of evidence back.
*/
module GreedyMatching {
  import opened Evidence

  /** The page has a piece of evidence of its own for every file. */
  ghost predicate Covers(entries: seq<Entry>, labels: seq<string>, baseline: Baseline, expected: seq<Entry>, proofs: seq<Proof>) {
    && |proofs| == |expected| && Injective(proofs)
    && forall j :: 0 <= j < |expected| ==>
         !proofs[j].Missing? && Shows(entries, labels, baseline, expected[j], proofs[j])
  }

  /** Every name occurs in those before it. */
  predicate InOrder(expected: seq<Entry>) {
    forall i, j :: 0 <= i < j < |expected| ==> Contains(expected[i].name, expected[j].name)
  }

  /** `Contains` is what it says: the name stands somewhere in the text. */
  lemma ContainsIsInfix(text: string, name: string)
    ensures Contains(text, name) <==> exists a: string, b: string :: text == (a + name) + b
  {
    if Contains(text, name) {
      var i: nat :| i <= |text| && StartsAt(text, name, i);
      assert text == (text[..i] + name) + text[i + |name|..];
    }
    if a: string, b: string :| text == (a + name) + b {
      assert text[|a|..|a| + |name|] == name;
      assert StartsAt(text, name, |a|);
    }
  }

  lemma ContainsIsTransitive(x: string, y: string, z: string)
    requires Contains(x, y) && Contains(y, z)
    ensures Contains(x, z)
  {
    var i: nat :| i <= |x| && StartsAt(x, y, i);
    var j: nat :| j <= |y| && StartsAt(y, z, j);
    forall n | 0 <= n < |z|
      ensures x[i + j..i + j + |z|][n] == z[n]
    {
      assert y[j + n] == y[j..j + |z|][n];
      assert x[i + (j + n)] == x[i..i + |y|][j + n];
    }
    assert x[i + j..i + j + |z|] == z;
    assert StartsAt(x, z, i + j);
  }

  /** What the greedy choice `p` of a file leaves unused shows every later file that `p` shows. */
  lemma MayStandIn(entries: seq<Entry>, labels: seq<string>, baseline: Baseline, file: Entry, later: Entry,
                   earlier: seq<Proof>, p: Proof, q: Proof)
    requires Foremost(entries, labels, baseline, file, earlier, p) && Contains(file.name, later.name)
    requires Shows(entries, labels, baseline, file, p) && Shows(entries, labels, baseline, later, p) && !p.Missing?
    requires Shows(entries, labels, baseline, file, q) && q !in earlier
    ensures Shows(entries, labels, baseline, later, q)
  {
    hide NewIndices, NewLabels, Contains;
    if p.Label? && q.Label? {
      ContainsIsTransitive(labels[q.index], file.name, later.name);
    }
  }

  lemma Replaced(entries: seq<Entry>, labels: seq<string>, baseline: Baseline, expected: seq<Entry>,
                 other: seq<Proof>, j: nat, p: Proof)
    requires Covers(entries, labels, baseline, expected, other) && j < |expected| && p !in other
    requires !p.Missing? && Shows(entries, labels, baseline, expected[j], p)
    ensures Covers(entries, labels, baseline, expected, other[j := p])
  {
    hide Shows;
  }

  lemma Swapped(entries: seq<Entry>, labels: seq<string>, baseline: Baseline, expected: seq<Entry>,
                other: seq<Proof>, j: nat, k: nat)
    requires Covers(entries, labels, baseline, expected, other) && j < k < |expected|
    requires Shows(entries, labels, baseline, expected[j], other[k]) && Shows(entries, labels, baseline, expected[k], other[j])
    ensures Covers(entries, labels, baseline, expected, other[j := other[k]][k := other[j]])
  {
    hide Shows;
  }

  /** At the `j`-th file, given what the earlier ones took, the matcher finds something. */
  lemma NotMissing(entries: seq<Entry>, labels: seq<string>, baseline: Baseline, expected: seq<Entry>,
                   proofs: seq<Proof>, other: seq<Proof>, j: nat)
    requires Matched(entries, labels, baseline, expected, proofs) && j < |expected|
    requires Covers(entries, labels, baseline, expected, other) && other[..j] == proofs[..j]
    ensures !proofs[j].Missing? && other[j] !in proofs[..j] && proofs[j] !in proofs[..j]
    ensures Foremost(entries, labels, baseline, expected[j], proofs[..j], proofs[j])
    ensures Shows(entries, labels, baseline, expected[j], proofs[j]) && Shows(entries, labels, baseline, expected[j], other[j])
  {
    hide Shows;
    assert other[j] !in other[..j];
    assert Foremost(entries, labels, baseline, expected[j], proofs[..j], proofs[j]);
  }

  lemma EarlierDiffer(other: seq<Proof>, proofs: seq<Proof>, j: nat, k: nat)
    requires |other| == |proofs| && j < |proofs| && k < |other| && other[..j] == proofs[..j]
    requires proofs[j] !in proofs[..j] && other[k] == proofs[j] && proofs[j] != other[j]
    ensures k > j
  {
    assert forall i :: 0 <= i < j ==> other[..j][i] == other[i] && other[i] in proofs[..j];
  }

  /** The files up to the `j`-th may as well have what the matcher gave them. */
  lemma Exchange(entries: seq<Entry>, labels: seq<string>, baseline: Baseline, expected: seq<Entry>,
                 proofs: seq<Proof>, other: seq<Proof>, j: nat) returns (next: seq<Proof>)
    requires Matched(entries, labels, baseline, expected, proofs) && InOrder(expected) && j < |expected|
    requires Covers(entries, labels, baseline, expected, other) && other[..j] == proofs[..j] && |other| == |proofs| == |expected|
    ensures !proofs[j].Missing?
    ensures Covers(entries, labels, baseline, expected, next) && |next| == |expected| && next[..j + 1] == proofs[..j + 1]
  {
    var p, q := proofs[j], other[j];
    NotMissing(entries, labels, baseline, expected, proofs, other, j);
    hide Matched, Shows, Contains, Foremost;
    assert proofs[..j + 1] == proofs[..j] + [p];
    if p !in other {
      next := other[j := p];
      hide Covers;
      Replaced(entries, labels, baseline, expected, other, j, p);
    } else if p == q {
      next := other;
    } else {
      var k :| 0 <= k < |other| && other[k] == p;
      EarlierDiffer(other, proofs, j, k);
      MayStandIn(entries, labels, baseline, expected[j], expected[k], proofs[..j], p, q);
      hide Covers;
      Swapped(entries, labels, baseline, expected, other, j, k);
      next := other[j := p][k := q];
    }
  }

  lemma {:induction false} FoundUpTo(entries: seq<Entry>, labels: seq<string>, baseline: Baseline, expected: seq<Entry>,
                                     proofs: seq<Proof>, other: seq<Proof>, j: nat)
    requires Matched(entries, labels, baseline, expected, proofs) && InOrder(expected) && j <= |expected|
    requires Covers(entries, labels, baseline, expected, other) && other[..j] == proofs[..j]
    ensures forall k :: j <= k < |expected| ==> !proofs[k].Missing?
    decreases |expected| - j
  {
    hide Matched, Covers, InOrder;
    if j < |expected| {
      SameLength(entries, labels, baseline, expected, proofs, other);
      var next := Exchange(entries, labels, baseline, expected, proofs, other, j);
      FoundUpTo(entries, labels, baseline, expected, proofs, next, j + 1);
    }
  }

  lemma SameLength(entries: seq<Entry>, labels: seq<string>, baseline: Baseline, expected: seq<Entry>,
                   proofs: seq<Proof>, other: seq<Proof>)
    requires Matched(entries, labels, baseline, expected, proofs) && Covers(entries, labels, baseline, expected, other)
    ensures |proofs| == |other| == |expected|
  {
  }

  /** If every name occurs in those before it, as for a single file or for files of one name,
      the matcher finds every file on every page that has evidence for all of them. */
  lemma InOrderIsFound(entries: seq<Entry>, labels: seq<string>, baseline: Baseline, expected: seq<Entry>,
                       proofs: seq<Proof>, other: seq<Proof>)
    requires InOrder(expected)
    requires Matched(entries, labels, baseline, expected, proofs) && Covers(entries, labels, baseline, expected, other)
    ensures Covers(entries, labels, baseline, expected, proofs)
  {
    FoundUpTo(entries, labels, baseline, expected, proofs, other, 0);
  }

  /** Every page with evidence for all of the files is found to have it. */
  ghost predicate AlwaysFound(expected: seq<Entry>) {
    forall entries, labels, baseline, proofs, other ::
      Matched(entries, labels, baseline, expected, proofs) && Covers(entries, labels, baseline, expected, other) ==>
        Covers(entries, labels, baseline, expected, proofs)
  }

  const NOTHING := Baseline(true, [], [])

  lemma AllAreNew<T>(now: seq<T>, i: nat)
    requires i < |now|
    ensures i in NewIndices(now, [])
  {
    assert now[..i + 1] == now[..i] + [now[i]];
    CountGrows(now[..i], now[i], now[i]);
  }

  // ----- the matcher always comes to something

  lemma {:induction false} LeastInput(entries: seq<Entry>, recent: set<nat>, used: set<nat>, e: Entry, n: nat) returns (i: nat)
    requires exists k: nat :: k < n && FitsInput(entries, recent, used, e, k)
    ensures FitsInput(entries, recent, used, e, i) && forall k: nat :: k < i ==> !FitsInput(entries, recent, used, e, k)
    decreases n
  {
    if exists k: nat :: k < n - 1 && FitsInput(entries, recent, used, e, k) {
      i := LeastInput(entries, recent, used, e, n - 1);
    } else {
      i := n - 1;
    }
  }

  lemma {:induction false} LeastLabel(labels: seq<string>, recent: set<nat>, used: set<nat>, name: string, n: nat) returns (i: nat)
    requires exists k: nat :: k < n && FitsLabel(labels, recent, used, name, k)
    ensures FitsLabel(labels, recent, used, name, i) && forall k: nat :: k < i ==> !FitsLabel(labels, recent, used, name, k)
    decreases n
  {
    if exists k: nat :: k < n - 1 && FitsLabel(labels, recent, used, name, k) {
      i := LeastLabel(labels, recent, used, name, n - 1);
    } else {
      i := n - 1;
    }
  }

  lemma NextExists(entries: seq<Entry>, labels: seq<string>, baseline: Baseline, e: Entry, proofs: seq<Proof>) returns (p: Proof)
    ensures IsNext(entries, labels, baseline, e, proofs, p)
  {
    hide UsedInputs, UsedLabels, NewIndices, NewLabels, Contains;
    var newInputs, newLabels := NewIndices(entries, baseline.entries), NewLabels(labels, baseline);
    var usedInputs, usedLabels := UsedInputs(proofs), UsedLabels(proofs);
    if exists i: nat :: i < |entries| && FitsInput(entries, newInputs, usedInputs, e, i) {
      var i := LeastInput(entries, newInputs, usedInputs, e, |entries|);
      p := InputEntry(i);
    } else if exists i: nat :: i < |labels| && FitsLabel(labels, newLabels, usedLabels, e.name, i) {
      var i := LeastLabel(labels, newLabels, usedLabels, e.name, |labels|);
      p := Label(i);
    } else {
      p := Missing;
    }
    UsedAreTaken(proofs);
    forall q: Proof | Shows(entries, labels, baseline, e, q) && Sooner(q, p)
      ensures q in proofs
    {
      if q.InputEntry? {
        assert !FitsInput(entries, newInputs, usedInputs, e, q.index);
      } else {
        assert !FitsLabel(labels, newLabels, usedLabels, e.name, q.index);
      }
    }
  }

  lemma {:induction false} MatchExists(entries: seq<Entry>, labels: seq<string>, baseline: Baseline, expected: seq<Entry>)
    returns (proofs: seq<Proof>)
    ensures Matched(entries, labels, baseline, expected, proofs)
    decreases |expected|
  {
    if expected == [] {
      NothingUsed(entries, labels, baseline);
      proofs := [];
    } else {
      hide Matched, IsNext;
      var last := |expected| - 1;
      proofs := MatchExists(entries, labels, baseline, expected[..last]);
      var p := NextExists(entries, labels, baseline, expected[last], proofs);
      MatchedGrows(entries, labels, baseline, expected[..last], expected[last], proofs, p);
      assert expected[..last] + [expected[last]] == expected;
      proofs := proofs + [p];
    }
  }

  // ----- a page on which it misses a file
  //
  // `a` is the file at `i`, `b` the one at `j`; the input has every other file but those like
  // `a`, one chip shows the names of both, and as many more as there are files like `a` show
  // its name only.

  /** The files that get no entry. */
  function Skipped(expected: seq<Entry>, a: Entry, j: nat): set<nat> {
    set k: nat | k < |expected| && (k == j || expected[k] == a)
  }

  function Others(expected: seq<Entry>, skipped: set<nat>, k: nat): seq<Entry>
    requires k <= |expected|
  {
    if k == 0 then []
    else Others(expected, skipped, k - 1) + if k - 1 in skipped then [] else [expected[k - 1]]
  }

  function Entries(expected: seq<Entry>, a: Entry, j: nat): seq<Entry> {
    Others(expected, Skipped(expected, a, j), |expected|)
  }

  function Chips(expected: seq<Entry>, a: Entry, b: Entry): seq<string> {
    [a.name + b.name] + seq(Count(expected, a), _ => a.name)
  }

  function Spread(expected: seq<Entry>, a: Entry, j: nat): (proofs: seq<Proof>)
    ensures |proofs| == |expected|
  {
    seq(|expected|, k requires 0 <= k < |expected| =>
      if k == j then Label(0)
      else if expected[k] == a then Label(1 + Count(expected[..k], a))
      else InputEntry(|Others(expected, Skipped(expected, a, j), k)|))
  }

  lemma {:induction false} OthersAt(expected: seq<Entry>, skipped: set<nat>, k: nat, n: nat)
    requires k < n <= |expected| && k !in skipped
    ensures var o, all := Others(expected, skipped, k), Others(expected, skipped, n);
      |o| < |all| && all[|o|] == expected[k]
    decreases n
  {
    if k < n - 1 {
      OthersAt(expected, skipped, k, n - 1);
    }
  }

  lemma {:induction false} OthersGrow(expected: seq<Entry>, skipped: set<nat>, k: nat, l: nat)
    requires k < l <= |expected|
    ensures |Others(expected, skipped, k)| + (if k in skipped then 0 else 1) <= |Others(expected, skipped, l)|
    decreases l
  {
    if k < l - 1 {
      OthersGrow(expected, skipped, k, l - 1);
    }
  }

  /** No entry like `a`. */
  lemma {:induction false} NoneLikeFirst(expected: seq<Entry>, a: Entry, skipped: set<nat>, k: nat)
    requires k <= |expected| && forall m :: 0 <= m < |expected| && expected[m] == a ==> m in skipped
    ensures a !in Others(expected, skipped, k)
    decreases k
  {
    if k > 0 {
      NoneLikeFirst(expected, a, skipped, k - 1);
    }
  }

  lemma OneMore(before: seq<Entry>, file: Entry, b: Entry)
    ensures Count(before + [file], b) == Count(before, b) + (if file == b then 1 else 0) && before + [] == before
  {
    CountGrows(before, file, b);
  }

  /** And of those like `b` one less than there are files, from the `j`-th on. */
  lemma {:induction false} OneLessOfSecond(expected: seq<Entry>, b: Entry, skipped: set<nat>, j: nat, k: nat)
    requires k <= |expected| && j < |expected| && expected[j] == b
    requires forall m :: 0 <= m < |expected| && expected[m] == b ==> (m in skipped <==> m == j)
    ensures Count(Others(expected, skipped, k), b) == Count(expected[..k], b) - (if k > j then 1 else 0)
    decreases k
  {
    hide Count;
    if k == 0 {
      assert expected[..k] == [] && Others(expected, skipped, k) == [];
    } else {
      var file := expected[k - 1];
      OneLessOfSecond(expected, b, skipped, j, k - 1);
      assert expected[..k] == expected[..k - 1] + [file];
      OneMore(expected[..k - 1], file, b);
      OneMore(Others(expected, skipped, k - 1), file, b);
    }
  }

  lemma RankGrows(expected: seq<Entry>, a: Entry, k: nat, l: nat)
    requires k < l <= |expected| && expected[k] == a
    ensures Count(expected[..k], a) < Count(expected[..l], a) <= Count(expected, a)
  {
    CountOfPrefix(expected[..l], k, a);
    assert expected[..l][..k] == expected[..k];
    CountOfPrefix(expected, l, a);
  }

  lemma SpreadIsInjective(expected: seq<Entry>, a: Entry, j: nat)
    ensures Injective(Spread(expected, a, j))
  {
    var proofs := Spread(expected, a, j);
    forall k, l | 0 <= k < l < |expected|
      ensures proofs[k] != proofs[l]
    {
      OthersGrow(expected, Skipped(expected, a, j), k, l);
      if expected[k] == a {
        RankGrows(expected, a, k, l);
      }
    }
  }

  lemma SpreadShows(expected: seq<Entry>, a: Entry, j: nat, k: nat)
    requires j < |expected| && k < |expected|
    ensures Shows(Entries(expected, a, j), Chips(expected, a, expected[j]), NOTHING, expected[k], Spread(expected, a, j)[k])
  {
    var b := expected[j];
    var labels := Chips(expected, a, b);
    if k == j {
      AllAreNew(labels, 0);
      assert labels[0] == (a.name + b.name) + [];
      ContainsIsInfix(labels[0], b.name);
    } else if expected[k] == a {
      RankGrows(expected, a, k, |expected|);
      assert expected[..|expected|] == expected;
      var l := 1 + Count(expected[..k], a);
      AllAreNew(labels, l);
      assert labels[l] == ([] + a.name) + [];
      ContainsIsInfix(labels[l], a.name);
    } else {
      OthersAt(expected, Skipped(expected, a, j), k, |expected|);
      AllAreNew(Entries(expected, a, j), |Others(expected, Skipped(expected, a, j), k)|);
    }
  }

  lemma SpreadCovers(expected: seq<Entry>, a: Entry, j: nat)
    requires j < |expected|
    ensures Covers(Entries(expected, a, j), Chips(expected, a, expected[j]), NOTHING, expected, Spread(expected, a, j))
  {
    SpreadIsInjective(expected, a, j);
    forall k | 0 <= k < |expected|
      ensures Shows(Entries(expected, a, j), Chips(expected, a, expected[j]), NOTHING, expected[k], Spread(expected, a, j)[k])
    {
      SpreadShows(expected, a, j, k);
    }
    hide Shows, Entries, Chips, Injective, Spread;
  }

  /** Files that all have entries of their own use as many as there are of them. */
  lemma {:induction false} AllUseEntries(entries: seq<Entry>, expected: seq<Entry>, proofs: seq<Proof>, b: Entry)
    requires |proofs| == |expected| && Injective(proofs)
    requires forall k :: 0 <= k < |expected| && expected[k] == b ==>
      proofs[k].InputEntry? && proofs[k].index < |entries| && entries[proofs[k].index] == b
    ensures |UsedOf(entries, UsedInputs(proofs), b)| >= Count(expected, b)
    decreases |expected|
  {
    if expected != [] {
      var last := |expected| - 1;
      var before, p := proofs[..last], proofs[last];
      assert proofs == before + [p];
      AllUseEntries(entries, expected[..last], before, b);
      if expected[last] == b {
        assert p.index !in UsedInputs(before);
        assert UsedInputs(proofs) == UsedInputs(before) + {p.index};
        UsingGrows(entries, UsedInputs(before), p.index, b);
      } else {
        assert UsedOf(entries, UsedInputs(before), b) <= UsedOf(entries, UsedInputs(proofs), b);
        SubsetIsSmaller(UsedOf(entries, UsedInputs(before), b), UsedOf(entries, UsedInputs(proofs), b));
      }
    }
  }

  /** The chips after the first show nothing of `b`. */
  lemma OnlyFirstChip(expected: seq<Entry>, a: Entry, b: Entry, entries: seq<Entry>, l: nat)
    requires !Contains(a.name, b.name) && Shows(entries, Chips(expected, a, b), NOTHING, b, Label(l))
    ensures l == 0
  {
    hide Contains, NewIndices;
    assert forall k :: 0 < k < |Chips(expected, a, b)| ==> Chips(expected, a, b)[k] == a.name;
  }

  lemma FirstChipShows(expected: seq<Entry>, a: Entry, b: Entry, entries: seq<Entry>)
    ensures Shows(entries, Chips(expected, a, b), NOTHING, a, Label(0))
  {
    var labels := Chips(expected, a, b);
    AllAreNew(labels, 0);
    assert labels[0] == ([] + a.name) + b.name;
    ContainsIsInfix(labels[0], a.name);
  }

  lemma NoEntryOf(expected: seq<Entry>, a: Entry, j: nat, labels: seq<string>, p: Proof)
    requires j < |expected| && Shows(Entries(expected, a, j), labels, NOTHING, a, p)
    ensures !p.InputEntry?
  {
    if p.InputEntry? {
      NoneLikeFirst(expected, a, Skipped(expected, a, j), |expected|);
    }
  }

  /** The first chip is taken by a file no later than the `i`-th. */
  lemma FirstChipIsTaken(entries: seq<Entry>, labels: seq<string>, expected: seq<Entry>, proofs: seq<Proof>, i: nat) returns (k: nat)
    requires Matched(entries, labels, NOTHING, expected, proofs) && i < |expected| && proofs[i].Label?
    requires Shows(entries, labels, NOTHING, expected[i], Label(0))
    ensures k <= i && proofs[k] == Label(0)
  {
    hide Shows, Injective;
    assert Foremost(entries, labels, NOTHING, expected[i], proofs[..i], proofs[i]);
    if proofs[i] == Label(0) {
      k := i;
    } else {
      assert Label(0) in proofs[..i];
      k :| 0 <= k < i && proofs[..i][k] == Label(0);
    }
  }

  /** Once a file like `b` has taken the first chip, no entry like it is left. */
  lemma NothingLeftFor(entries: seq<Entry>, labels: seq<string>, expected: seq<Entry>, proofs: seq<Proof>, k: nat, j: nat)
    requires Matched(entries, labels, NOTHING, expected, proofs) && k < j < |expected| && expected[k] == expected[j]
    requires proofs[k] == Label(0)
    ensures !proofs[j].InputEntry?
  {
    hide NewIndices, NewLabels, Contains, Injective;
    assert Foremost(entries, labels, NOTHING, expected[k], proofs[..k], proofs[k]);
    assert Shows(entries, labels, NOTHING, expected[j], proofs[j]);
    if !proofs[j].Missing? {
      NotBefore(proofs, k, j);
    }
  }

  lemma NotBefore(proofs: seq<Proof>, k: nat, j: nat)
    requires Injective(proofs) && k <= j < |proofs| && !proofs[j].Missing?
    ensures proofs[j] !in proofs[..k]
  {
    assert forall m :: 0 <= m < k ==> proofs[..k][m] == proofs[m] && proofs[m] != proofs[j];
  }

  /** There are fewer entries like `b` than files. */
  lemma TooFewEntries(expected: seq<Entry>, a: Entry, j: nat, labels: seq<string>, proofs: seq<Proof>)
    requires j < |expected| && expected[j] != a
    requires Matched(Entries(expected, a, j), labels, NOTHING, expected, proofs)
    ensures exists k :: 0 <= k < |expected| && expected[k] == expected[j] && !proofs[k].InputEntry?
  {
    var entries, b := Entries(expected, a, j), expected[j];
    EvidenceIsDifference(entries, labels, NOTHING, expected, proofs);
    OneLessOfSecond(expected, b, Skipped(expected, a, j), j, |expected|);
    assert expected[..|expected|] == expected && Count([], b) == 0;
    if forall k :: 0 <= k < |expected| && expected[k] == b ==> proofs[k].InputEntry? {
      assert forall k :: 0 <= k < |expected| ==> Shows(entries, labels, NOTHING, expected[k], proofs[k]);
      AllUseEntries(entries, expected, proofs, b);
      CountOfPrefix(expected, j, b);
      assert false;
    }
  }

  lemma SomeoneIsMissed(expected: seq<Entry>, i: nat, j: nat, proofs: seq<Proof>)
    requires i < j < |expected| && !Contains(expected[i].name, expected[j].name)
    requires var a := expected[i];
      Matched(Entries(expected, a, j), Chips(expected, a, expected[j]), NOTHING, expected, proofs)
    ensures Missing in proofs
  {
    var a, b := expected[i], expected[j];
    var entries, labels := Entries(expected, a, j), Chips(expected, a, b);
    ContainsIsInfix(a.name, a.name);
    assert a.name == ([] + a.name) + [];
    TooFewEntries(expected, a, j, labels, proofs);
    assert Shows(entries, labels, NOTHING, a, proofs[i]);
    NoEntryOf(expected, a, j, labels, proofs[i]);
    FirstChipShows(expected, a, b, entries);
    var k :| 0 <= k < |expected| && expected[k] == b && !proofs[k].InputEntry?;
    assert Shows(entries, labels, NOTHING, b, proofs[k]) && Shows(entries, labels, NOTHING, b, proofs[j]);
    hide Shows, Matched, Contains, Entries, Chips;
    if proofs[i].Label? && proofs[k].Label? && proofs[j] != Missing {
      FirstIsTakenOnce(entries, labels, expected, proofs);
      OnlyFirstChip(expected, a, b, entries, proofs[k].index);
      var t := FirstChipIsTaken(entries, labels, expected, proofs, i);
      NothingLeftFor(entries, labels, expected, proofs, k, j);
      OnlyFirstChip(expected, a, b, entries, proofs[j].index);
      assert false;
    }
  }

  lemma FirstIsTakenOnce(entries: seq<Entry>, labels: seq<string>, expected: seq<Entry>, proofs: seq<Proof>)
    requires Matched(entries, labels, NOTHING, expected, proofs)
    ensures |proofs| == |expected|
    ensures forall k, l :: 0 <= k < |expected| && 0 <= l < |expected| && proofs[k] == proofs[l] == Label(0) ==> k == l
  {
  }

  /** The matcher finds every file on every page with evidence of its own for each, if and
      only if every name occurs in those before it. */
  lemma FoundExactly(expected: seq<Entry>)
    ensures AlwaysFound(expected) <==> InOrder(expected)
  {
    hide Matched, Covers, Contains;
    if InOrder(expected) {
      forall entries, labels, baseline, proofs, other |
        Matched(entries, labels, baseline, expected, proofs) && Covers(entries, labels, baseline, expected, other)
        ensures Covers(entries, labels, baseline, expected, proofs)
      {
        InOrderIsFound(entries, labels, baseline, expected, proofs, other);
      }
    } else {
      var i, j :| 0 <= i < j < |expected| && !Contains(expected[i].name, expected[j].name);
      var a := expected[i];
      var entries, labels := Entries(expected, a, j), Chips(expected, a, expected[j]);
      var proofs := MatchExists(entries, labels, NOTHING, expected);
      SomeoneIsMissed(expected, i, j, proofs);
      SpreadCovers(expected, a, j);
      MissingIsUncovered(entries, labels, expected, proofs);
    }
  }

  lemma MissingIsUncovered(entries: seq<Entry>, labels: seq<string>, expected: seq<Entry>, proofs: seq<Proof>)
    requires Missing in proofs
    ensures !Covers(entries, labels, NOTHING, expected, proofs)
  {
  }

  /** The smallest such page: a chip that shows both names, and one that shows only the first;
      the first file takes the chip that the second needs. */
  lemma SecondIsMissed(a: Entry, b: Entry)
    requires !Contains(a.name, b.name)
    ensures var labels := [a.name + b.name, a.name];
      && Matched([], labels, NOTHING, [a, b], [Label(0), Missing])
      && Covers([], labels, NOTHING, [a, b], [Label(1), Label(0)])
  {
    var labels := [a.name + b.name, a.name];
    AllAreNew(labels, 0);
    AllAreNew(labels, 1);
    assert labels[0] == ([] + a.name) + b.name && labels[0] == (a.name + b.name) + [] && labels[1] == ([] + a.name) + [];
    ContainsIsInfix(labels[0], a.name);
    ContainsIsInfix(labels[0], b.name);
    ContainsIsInfix(labels[1], a.name);
    hide Contains, NewIndices;
    assert [Label(0), Missing][..1] == [Label(0)];
    assert Foremost([], labels, NOTHING, a, [], Label(0));
    assert Foremost([], labels, NOTHING, b, [Label(0)], Missing);
  }
}
