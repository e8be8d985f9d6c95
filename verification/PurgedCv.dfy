/**
 Purged combinatorial cross-validation: samples in sequential groups, every choice of test groups a
 split, and training on what lies outside the test groups widened by the purge window before each
 of them and the embargo after it.
 */
module PurgedCv {
  import opened Combinatorics

  /** The guards, in the order in which they are checked. */
  datatype ArgError = NoSamples | TooFewGroups | BadTestGroups | NegativeWindow | FewerSamplesThanGroups

  datatype Split = Split(train: seq<nat>, test: seq<nat>)

  datatype Outcome = Splits(splits: seq<Split>) | Rejected(error: ArgError)

  // ---------- groups ----------

  predicate Shape(n: nat, groups: nat) {
    1 < groups <= n
  }

  function Low(n: nat, groups: nat, g: nat): nat
    requires Shape(n, groups)
  {
    g * (n / groups)
  }

  function High(n: nat, groups: nat, g: nat): nat
    requires Shape(n, groups)
  {
    if g < groups - 1 then (g + 1) * (n / groups) else n
  }

  predicate InGroup(n: nat, groups: nat, g: nat, sample: nat)
    requires Shape(n, groups)
  {
    Low(n, groups, g) <= sample < High(n, groups, g)
  }

  lemma LastGroupFits(n: nat, groups: nat)
    requires Shape(n, groups)
    ensures 1 <= n / groups && groups * (n / groups) <= n
  {
  }

  lemma Scaled(a: nat, b: nat, size: nat)
    requires a <= b
    ensures a * size <= b * size
  {
  }

  lemma GroupBounds(n: nat, groups: nat, g: nat)
    requires Shape(n, groups) && g < groups
    ensures Low(n, groups, g) < High(n, groups, g) <= n
  {
    LastGroupFits(n, groups);
    Scaled(g + 1, groups, n / groups);
    assert (g + 1) * (n / groups) == g * (n / groups) + n / groups;
  }

  lemma GroupsAscend(n: nat, groups: nat, g: nat, h: nat)
    requires Shape(n, groups) && g < h < groups
    ensures High(n, groups, g) <= Low(n, groups, h)
  {
    Scaled(g + 1, h, n / groups);
  }

  /** The group of a sample. */
  function GroupOf(n: nat, groups: nat, sample: nat): nat
    requires Shape(n, groups)
  {
    var g := sample / (n / groups);
    if g < groups then g else groups - 1
  }

  lemma Quotient(a: nat, size: nat)
    requires size > 0
    ensures (a / size) * size <= a < (a / size + 1) * size
  {
  }

  lemma InOwnGroup(n: nat, groups: nat, sample: nat)
    requires Shape(n, groups) && sample < n
    ensures GroupOf(n, groups, sample) < groups && InGroup(n, groups, GroupOf(n, groups, sample), sample)
  {
    var size := n / groups;
    LastGroupFits(n, groups);
    Quotient(sample, size);
    if sample / size >= groups - 1 { Scaled(groups - 1, sample / size, size); }
  }

  /** The groups partition the samples: each lies in its group and in no other. */
  lemma GroupsPartition(n: nat, groups: nat, sample: nat, g: nat)
    requires Shape(n, groups) && sample < n && g < groups
    ensures GroupOf(n, groups, sample) < groups
    ensures InGroup(n, groups, g, sample) <==> g == GroupOf(n, groups, sample)
  {
    var own := GroupOf(n, groups, sample);
    InOwnGroup(n, groups, sample);
    hide GroupOf;
    if g < own { GroupsAscend(n, groups, g, own); }
    if own < g { GroupsAscend(n, groups, own, g); }
  }

  /** All groups but the last are of one size, and the last takes the remainder. */
  lemma GroupSizes(n: nat, groups: nat, g: nat)
    requires Shape(n, groups) && g < groups
    ensures g < groups - 1 ==> High(n, groups, g) - Low(n, groups, g) == n / groups
    ensures g == groups - 1 ==> High(n, groups, g) - Low(n, groups, g) == n / groups + n % groups
    ensures Low(n, groups, 0) == 0 && High(n, groups, groups - 1) == n
  {
    assert (g + 1) * (n / groups) == g * (n / groups) + n / groups;
    assert groups * (n / groups) + n % groups == n;
    assert (groups - 1) * (n / groups) == groups * (n / groups) - n / groups;
  }

  // ---------- what a split must be ----------

  ghost predicate Increasing(s: seq<nat>) {
    forall i, j :: 0 <= i < j < |s| ==> s[i] < s[j]
  }

  ghost predicate Tests(n: nat, groups: nat, combo: seq<nat>, sample: nat)
    requires Shape(n, groups)
  {
    exists i :: 0 <= i < |combo| && InGroup(n, groups, combo[i], sample)
  }

  /** The sample lies in a test group or within the purge before it or the embargo after it. */
  ghost predicate Tainted(n: nat, groups: nat, purge: nat, embargo: nat, combo: seq<nat>, sample: nat)
    requires Shape(n, groups)
  {
    exists i :: 0 <= i < |combo| && Low(n, groups, combo[i]) - purge <= sample < High(n, groups, combo[i]) + embargo
  }

  ghost predicate IsSplit(n: nat, groups: nat, purge: nat, embargo: nat, combo: seq<nat>, split: Split)
    requires Shape(n, groups)
  {
    && Increasing(split.test) && Increasing(split.train)
    && (forall x: nat :: x in split.test <==> x < n && Tests(n, groups, combo, x))
    && (forall x: nat :: x in split.train <==> x < n && !Tainted(n, groups, purge, embargo, combo, x))
  }

  /** How many splits have the sample in their test set. */
  function TimesTested(splits: seq<Split>, sample: nat): nat {
    if splits == [] then 0
    else TimesTested(splits[..|splits| - 1], sample) + (if sample in splits[|splits| - 1].test then 1 else 0)
  }

  // ---------- the code ----------

  function Range(lo: int, hi: int): (r: set<int>)
    ensures forall x :: x in r <==> lo <= x < hi
    decreases hi - lo
  {
    if hi <= lo then {} else Range(lo, hi - 1) + {hi - 1}
  }

  /** The ascending run `lo .. hi` that is concatenated for each test group. */
  method Arange(lo: nat, hi: nat) returns (r: seq<nat>)
    requires lo <= hi
    ensures |r| == hi - lo && forall i :: 0 <= i < |r| ==> r[i] == lo + i
  {
    r := seq(hi - lo, i requires 0 <= i < hi - lo => lo + i);
  }

  method TestIndices(n: nat, groups: nat, combo: seq<nat>) returns (test: seq<nat>)
    requires Shape(n, groups) && IsCombination(combo, 0, groups, |combo|)
    ensures Increasing(test)
    ensures forall x: nat :: x in test <==> x < n && Tests(n, groups, combo, x)
  {
    test := [];
    for i := 0 to |combo|
      invariant Increasing(test)
      invariant forall x: nat :: x in test <==> x < n && Tests(n, groups, combo[..i], x)
      invariant i > 0 ==> forall x :: x in test ==> x < High(n, groups, combo[i - 1])
    {
      GroupBounds(n, groups, combo[i]);
      if i > 0 { GroupsAscend(n, groups, combo[i - 1], combo[i]); }
      var run := Arange(Low(n, groups, combo[i]), High(n, groups, combo[i]));
      RunMembers(run, Low(n, groups, combo[i]), High(n, groups, combo[i]));
      TestsOneMore(n, groups, combo, i);
      IncreasingConcat(test, run);
      test := test + run;
    }
    assert combo[..|combo|] == combo;
  }

  lemma RunMembers(run: seq<nat>, lo: nat, hi: nat)
    requires lo <= hi && |run| == hi - lo && forall i :: 0 <= i < |run| ==> run[i] == lo + i
    ensures forall x: nat :: x in run <==> lo <= x < hi
  {
    forall x: nat | lo <= x < hi ensures x in run { assert run[x - lo] == x; }
  }

  lemma IncreasingConcat(a: seq<nat>, b: seq<nat>)
    requires Increasing(a) && Increasing(b) && forall x, y :: x in a && y in b ==> x < y
    ensures Increasing(a + b)
  {
    forall i, j | 0 <= i < j < |a + b| ensures (a + b)[i] < (a + b)[j] {
      if i < |a| <= j { assert a[i] in a && b[j - |a|] in b; }
    }
  }

  lemma TestsOneMore(n: nat, groups: nat, combo: seq<nat>, i: nat)
    requires Shape(n, groups) && i < |combo|
    ensures forall x: nat :: Tests(n, groups, combo[..i + 1], x)
                             <==> Tests(n, groups, combo[..i], x) || InGroup(n, groups, combo[i], x)
  {
    forall x: nat ensures Tests(n, groups, combo[..i + 1], x)
                          <==> Tests(n, groups, combo[..i], x) || InGroup(n, groups, combo[i], x) {
      if Tests(n, groups, combo[..i], x) {
        var j :| 0 <= j < i && InGroup(n, groups, combo[..i][j], x);
        assert combo[..i + 1][j] == combo[..i][j];
      }
      if InGroup(n, groups, combo[i], x) { assert combo[..i + 1][i] == combo[i]; }
      if Tests(n, groups, combo[..i + 1], x) {
        var j :| 0 <= j <= i && InGroup(n, groups, combo[..i + 1][j], x);
        assert j < i ==> combo[..i][j] == combo[..i + 1][j];
      }
    }
  }

  /** The growing set of indices a split may not train on. */
  method Forbidden(n: nat, groups: nat, purge: nat, embargo: nat, combo: seq<nat>, test: seq<nat>)
    returns (forbidden: set<int>)
    requires Shape(n, groups) && IsCombination(combo, 0, groups, |combo|)
    requires forall x: nat :: x in test <==> x < n && Tests(n, groups, combo, x)
    ensures forall x: nat :: x in forbidden <==> x < n && Tainted(n, groups, purge, embargo, combo, x)
  {
    forbidden := set x | x in test;
    for i := 0 to |combo|
      invariant forall x: nat ::
                  (x in forbidden
                   <==> x < n && (Tests(n, groups, combo, x) || Tainted(n, groups, purge, embargo, combo[..i], x)))
    {
      var lo, hi := Low(n, groups, combo[i]), High(n, groups, combo[i]);
      GroupBounds(n, groups, combo[i]);
      TaintedOneMore(n, groups, purge, embargo, combo, i);
      forall x: nat | lo <= x < hi ensures Tests(n, groups, combo, x) { assert InGroup(n, groups, combo[i], x); }
      forbidden := forbidden + Range(if 0 > lo - purge then 0 else lo - purge, lo);
      forbidden := forbidden + Range(hi, if n < hi + embargo then n else hi + embargo);
    }
    assert combo[..|combo|] == combo;
    forall x: nat | Tests(n, groups, combo, x) ensures Tainted(n, groups, purge, embargo, combo, x) {
      var j :| 0 <= j < |combo| && InGroup(n, groups, combo[j], x);
      assert Low(n, groups, combo[j]) - purge <= x < High(n, groups, combo[j]) + embargo;
    }
  }

  lemma TaintedOneMore(n: nat, groups: nat, purge: nat, embargo: nat, combo: seq<nat>, i: nat)
    requires Shape(n, groups) && i < |combo|
    ensures forall x: nat :: Tainted(n, groups, purge, embargo, combo[..i + 1], x)
              <==> Tainted(n, groups, purge, embargo, combo[..i], x)
                   || Low(n, groups, combo[i]) - purge <= x < High(n, groups, combo[i]) + embargo
  {
    forall x: nat ensures Tainted(n, groups, purge, embargo, combo[..i + 1], x)
              <==> Tainted(n, groups, purge, embargo, combo[..i], x)
                   || Low(n, groups, combo[i]) - purge <= x < High(n, groups, combo[i]) + embargo {
      var more, less := combo[..i + 1], combo[..i];
      assert more[i] == combo[i];
      if Tainted(n, groups, purge, embargo, less, x) {
        var j :| 0 <= j < i && Low(n, groups, less[j]) - purge <= x < High(n, groups, less[j]) + embargo;
        assert more[j] == less[j];
      }
      if Tainted(n, groups, purge, embargo, more, x) {
        var j :| 0 <= j <= i && Low(n, groups, more[j]) - purge <= x < High(n, groups, more[j]) + embargo;
        assert j < i ==> less[j] == more[j];
      }
    }
  }

  method TrainIndices(n: nat, forbidden: set<int>) returns (train: seq<nat>)
    ensures Increasing(train)
    ensures forall x: nat :: x in train <==> x < n && x !in forbidden
  {
    train := [];
    for i := 0 to n
      invariant Increasing(train)
      invariant forall x: nat :: x in train <==> x < i && x !in forbidden
    {
      if i !in forbidden {
        assert forall k :: 0 <= k < |train| ==> train[k] in train;
        train := train + [i];
      }
    }
  }

  /**
   All splits: one for each choice of test groups in lexicographic order, C(groups, test groups) of
   them, each sample tested in exactly C(groups - 1, test groups - 1).
   */
  method PurgedCpcvSplits(nSamples: int, nGroups: int, nTestGroups: int, purge: int, embargo: int) returns (r: Outcome)
    ensures r.Splits? <==> 0 < nTestGroups < nGroups <= nSamples && 0 <= purge && 0 <= embargo
    ensures r.Splits? ==>
              && |r.splits| == |Combinations(0, nGroups, nTestGroups)| == Choose(nGroups, nTestGroups)
              && (forall j :: 0 <= j < |r.splits| ==>
                    IsSplit(nSamples, nGroups, purge, embargo, Combinations(0, nGroups, nTestGroups)[j], r.splits[j]))
              && (forall x: nat :: x < nSamples ==> TimesTested(r.splits, x) == Choose(nGroups - 1, nTestGroups - 1))
    ensures r.Rejected? ==>
              match r.error
              case NoSamples => nSamples <= 0
              case TooFewGroups => nSamples > 0 && nGroups <= 1
              case BadTestGroups => nSamples > 0 && nGroups > 1 && !(0 < nTestGroups < nGroups)
              case NegativeWindow => nSamples > 0 && 0 < nTestGroups < nGroups && (purge < 0 || embargo < 0)
              case FewerSamplesThanGroups =>
                0 < nTestGroups < nGroups && purge >= 0 && embargo >= 0 && 0 < nSamples < nGroups
  {
    if nSamples <= 0 { return Rejected(NoSamples); }
    if nGroups <= 1 { return Rejected(TooFewGroups); }
    if nTestGroups <= 0 || nTestGroups >= nGroups { return Rejected(BadTestGroups); }
    if purge < 0 || embargo < 0 { return Rejected(NegativeWindow); }
    if nSamples < nGroups { return Rejected(FewerSamplesThanGroups); }
    var combos := Combinations(0, nGroups, nTestGroups);
    var splits: seq<Split> := [];
    for j := 0 to |combos|
      invariant |splits| == j
      invariant forall i :: 0 <= i < j ==> IsSplit(nSamples, nGroups, purge, embargo, combos[i], splits[i])
    {
      var combo := combos[j];
      assert combo in combos;
      ListsCombinations(combo, 0, nGroups, nTestGroups);
      var test := TestIndices(nSamples, nGroups, combo);
      var forbidden := Forbidden(nSamples, nGroups, purge, embargo, combo, test);
      var train := TrainIndices(nSamples, forbidden);
      splits := splits + [Split(train, test)];
    }
    CountCombinations(0, nGroups, nTestGroups);
    forall x: nat | x < nSamples ensures TimesTested(splits, x) == Choose(nGroups - 1, nTestGroups - 1) {
      TestedEqually(nSamples, nGroups, nTestGroups, purge, embargo, splits, x);
    }
    return Splits(splits);
  }

  // ---------- coverage ----------

  lemma {:induction false} TestedAsListed(n: nat, groups: nat, k: nat, purge: nat, embargo: nat,
                                          combos: seq<seq<nat>>, splits: seq<Split>, sample: nat)
    requires Shape(n, groups) && sample < n && |splits| == |combos|
    requires forall j :: 0 <= j < |combos| ==> IsCombination(combos[j], 0, groups, k)
    requires forall j :: 0 <= j < |combos| ==> IsSplit(n, groups, purge, embargo, combos[j], splits[j])
    ensures TimesTested(splits, sample) == CountWith(combos, GroupOf(n, groups, sample))
  {
    if splits != [] {
      var last := |splits| - 1;
      TestedAsListed(n, groups, k, purge, embargo, combos[..last], splits[..last], sample);
      TestedByGroup(n, groups, k, combos[last], sample);
    }
  }

  lemma TestedByGroup(n: nat, groups: nat, k: nat, combo: seq<nat>, sample: nat)
    requires Shape(n, groups) && sample < n && IsCombination(combo, 0, groups, k)
    ensures Tests(n, groups, combo, sample) <==> GroupOf(n, groups, sample) in combo
  {
    forall i | 0 <= i < |combo| ensures InGroup(n, groups, combo[i], sample)
        <==> combo[i] == GroupOf(n, groups, sample) {
      GroupsPartition(n, groups, sample, combo[i]);
    }
  }

  lemma TestedEqually(n: nat, groups: nat, k: nat, purge: nat, embargo: nat, splits: seq<Split>, sample: nat)
    requires Shape(n, groups) && 0 < k < groups && sample < n
    requires var combos := Combinations(0, groups, k);
             && |splits| == |combos|
             && (forall j :: 0 <= j < |combos| ==> IsSplit(n, groups, purge, embargo, combos[j], splits[j]))
    ensures TimesTested(splits, sample) == Choose(groups - 1, k - 1)
  {
    var combos := Combinations(0, groups, k);
    forall j | 0 <= j < |combos| ensures IsCombination(combos[j], 0, groups, k) {
      assert combos[j] in combos;
      ListsCombinations(combos[j], 0, groups, k);
    }
    TestedAsListed(n, groups, k, purge, embargo, combos, splits, sample);
    GroupsPartition(n, groups, sample, 0);
    CountContaining(0, groups, k, GroupOf(n, groups, sample));
  }

  /** Training and test samples never meet, and no training sample is within reach of a test one. */
  lemma TrainAvoidsTest(n: nat, groups: nat, k: nat, purge: nat, embargo: nat, combo: seq<nat>, split: Split, a: nat,
                        b: nat)
    requires Shape(n, groups) && IsCombination(combo, 0, groups, k) && IsSplit(n, groups, purge, embargo, combo, split)
    requires a in split.train && b in split.test
    ensures a < b ==> b - a > purge
    ensures a >= b ==> a - b > embargo
  {
    var i :| 0 <= i < |combo| && InGroup(n, groups, combo[i], b);
    assert !(Low(n, groups, combo[i]) - purge <= a < High(n, groups, combo[i]) + embargo);
  }
}
