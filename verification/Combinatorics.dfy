/** `itertools.combinations` over a range of indices, and how many there are. */
module Combinatorics {

  /** Binomial coefficients by Pascal's rule. */
  function Choose(n: nat, k: nat): nat {
    if k == 0 then 1 else if n == 0 then 0 else Choose(n - 1, k - 1) + Choose(n - 1, k)
  }

  function Factorial(n: nat): nat {
    if n == 0 then 1 else n * Factorial(n - 1)
  }

  lemma {:induction false} ChooseMany(n: nat, k: nat)
    requires k > n
    ensures Choose(n, k) == 0
  {
    if n > 0 {
      ChooseMany(n - 1, k - 1);
      ChooseMany(n - 1, k);
    }
  }

  /** Pascal's rule counts what the factorial formula counts. */
  lemma {:induction false} ChooseIsBinomial(n: nat, k: nat)
    requires k <= n
    ensures Choose(n, k) * (Factorial(k) * Factorial(n - k)) == Factorial(n)
  {
    if k == 0 {
    } else if k == n {
      ChooseMany(n - 1, n);
      ChooseIsBinomial(n - 1, n - 1);
      AllChosen(n);
    } else {
      ChooseIsBinomial(n - 1, k - 1);
      ChooseIsBinomial(n - 1, k);
      BinomialStep(Choose(n - 1, k - 1), Choose(n - 1, k), Factorial(k - 1), Factorial(n - 1 - k), Factorial(n - 1), k,
                   n);
    }
  }

  lemma {:induction false} AllChosen(n: nat)
    ensures Choose(n, n) == 1
  {
    if n > 0 {
      AllChosen(n - 1);
      ChooseMany(n - 1, n);
    }
  }

  lemma BinomialStep(a: int, b: int, p: int, q: int, f: int, k: int, n: int)
    requires a * (p * ((n - k) * q)) == f && b * ((k * p) * q) == f
    ensures (a + b) * ((k * p) * ((n - k) * q)) == n * f
  {
    var whole := (k * p) * ((n - k) * q);
    calc {
      (a + b) * whole;
      a * whole + b * whole;
      { assert a * whole == k * (a * (p * ((n - k) * q))); assert b * whole == (n - k) * (b * ((k * p) * q)); }
      k * f + (n - k) * f;
      n * f;
    }
  }

  // ---------- the combinations ----------

  function Prefixed(g: nat, combos: seq<seq<nat>>): (r: seq<seq<nat>>)
    ensures |r| == |combos| && forall j :: 0 <= j < |r| ==> r[j] == [g] + combos[j]
  {
    seq(|combos|, j requires 0 <= j < |combos| => [g] + combos[j])
  }

  /** The `k`-element combinations of `from .. upTo`, in lexicographic order. */
  function Combinations(from: nat, upTo: nat, k: nat): seq<seq<nat>>
    requires from <= upTo
    decreases upTo - from
  {
    if k == 0 then [[]]
    else if from == upTo then []
    else Prefixed(from, Combinations(from + 1, upTo, k - 1)) + Combinations(from + 1, upTo, k)
  }

  predicate Ascending(s: seq<nat>) {
    forall i, j :: 0 <= i < j < |s| ==> s[i] < s[j]
  }

  predicate IsCombination(c: seq<nat>, from: nat, upTo: nat, k: nat) {
    |c| == k && Ascending(c) && forall i :: 0 <= i < |c| ==> from <= c[i] < upTo
  }

  lemma PrefixIsCombination(c: seq<nat>, from: nat, upTo: nat, k: nat)
    requires from < upTo && k > 0
    ensures IsCombination(c, from, upTo, k) && c[0] == from
            <==> c != [] && c[0] == from && IsCombination(c[1..], from + 1, upTo, k - 1)
  {
    if c != [] && c[0] == from && IsCombination(c[1..], from + 1, upTo, k - 1) {
      forall i, j | 0 <= i < j < |c| ensures c[i] < c[j] {
        assert c[j] == c[1..][j - 1];
        if i > 0 { assert c[i] == c[1..][i - 1]; }
      }
      forall i | 0 <= i < |c| ensures from <= c[i] < upTo {
        if i > 0 { assert c[i] == c[1..][i - 1]; }
      }
    }
  }

  lemma InPrefixed(g: nat, combos: seq<seq<nat>>, c: seq<nat>)
    ensures c in Prefixed(g, combos) <==> c != [] && c[0] == g && c[1..] in combos
  {
    var r := Prefixed(g, combos);
    if c in r {
      var j :| 0 <= j < |r| && r[j] == c;
      assert c == [g] + combos[j] && c[1..] == combos[j];
    }
    if c != [] && c[0] == g && c[1..] in combos {
      var j :| 0 <= j < |combos| && combos[j] == c[1..];
      assert r[j] == [g] + c[1..] == c;
    }
  }

  lemma LaterIsCombination(c: seq<nat>, from: nat, upTo: nat, k: nat)
    requires k > 0
    ensures IsCombination(c, from + 1, upTo, k) <==> IsCombination(c, from, upTo, k) && c[0] != from
  {
    if IsCombination(c, from, upTo, k) && c[0] != from {
      forall i | 0 <= i < |c| ensures from + 1 <= c[i] < upTo { assert c[0] <= c[i]; }
    }
  }

  /** The listing holds the ascending `k`-tuples of the range and nothing else. */
  lemma {:induction false} ListsCombinations(c: seq<nat>, from: nat, upTo: nat, k: nat)
    requires from <= upTo
    ensures c in Combinations(from, upTo, k) <==> IsCombination(c, from, upTo, k)
    decreases upTo - from
  {
    hide Combinations, IsCombination;
    if k == 0 {
      EmptyCombination(c, from, upTo);
    } else if from == upTo {
      NoCombination(c, from, k);
    } else {
      ListedIff(c, from, upTo, k);
      CombinationIff(c, from, upTo, k);
      ListsCombinations(c, from + 1, upTo, k);
      if c != [] { ListsCombinations(c[1..], from + 1, upTo, k - 1); }
    }
  }

  lemma EmptyCombination(c: seq<nat>, from: nat, upTo: nat)
    requires from <= upTo
    ensures (c in Combinations(from, upTo, 0) <==> c == []) && (IsCombination(c, from, upTo, 0) <==> c == [])
  {
  }

  lemma NoCombination(c: seq<nat>, from: nat, k: nat)
    requires k > 0
    ensures c !in Combinations(from, from, k) && !IsCombination(c, from, from, k)
  {
    assert c != [] ==> !(from <= c[0] < from);
  }

  lemma ListedIff(c: seq<nat>, from: nat, upTo: nat, k: nat)
    requires from < upTo && k > 0
    ensures c in Combinations(from, upTo, k)
            <==> (c != [] && c[0] == from && c[1..] in Combinations(from + 1, upTo, k - 1))
                 || c in Combinations(from + 1, upTo, k)
  {
    hide Prefixed;
    InPrefixed(from, Combinations(from + 1, upTo, k - 1), c);
  }

  lemma CombinationIff(c: seq<nat>, from: nat, upTo: nat, k: nat)
    requires from < upTo && k > 0
    ensures IsCombination(c, from, upTo, k)
            <==> (c != [] && c[0] == from && IsCombination(c[1..], from + 1, upTo, k - 1))
                 || IsCombination(c, from + 1, upTo, k)
  {
    PrefixIsCombination(c, from, upTo, k);
    LaterIsCombination(c, from, upTo, k);
  }

  ghost predicate Distinct(all: seq<seq<nat>>) {
    forall i, j :: 0 <= i < j < |all| ==> all[i] != all[j]
  }

  lemma DistinctConcat(from: nat, heads: seq<seq<nat>>, tails: seq<seq<nat>>)
    requires Distinct(heads) && Distinct(tails) && forall c :: c in tails ==> c != [] && c[0] != from
    ensures Distinct(Prefixed(from, heads) + tails)
  {
    var all := Prefixed(from, heads) + tails;
    forall i, j | 0 <= i < j < |all| ensures all[i] != all[j] {
      if j < |heads| {
        assert all[i] == [from] + heads[i] && all[j] == [from] + heads[j];
        assert all[i][1..] == heads[i] && all[j][1..] == heads[j];
      } else {
        assert all[j] == tails[j - |heads|] && all[j] in tails;
        if i < |heads| { assert all[i] == [from] + heads[i]; }
      }
    }
  }

  /** No combination is listed twice. */
  lemma {:induction false} CombinationsDiffer(from: nat, upTo: nat, k: nat)
    requires from <= upTo
    ensures Distinct(Combinations(from, upTo, k))
    decreases upTo - from
  {
    if k > 0 && from < upTo {
      var tails := Combinations(from + 1, upTo, k);
      CombinationsDiffer(from + 1, upTo, k - 1);
      CombinationsDiffer(from + 1, upTo, k);
      forall c | c in tails ensures c != [] && c[0] != from {
        ListsCombinations(c, from + 1, upTo, k);
        assert from + 1 <= c[0];
      }
      DistinctConcat(from, Combinations(from + 1, upTo, k - 1), tails);
    }
  }

  lemma {:induction false} CountCombinations(from: nat, upTo: nat, k: nat)
    requires from <= upTo
    ensures |Combinations(from, upTo, k)| == Choose(upTo - from, k)
    decreases upTo - from
  {
    if k > 0 && from < upTo {
      CountCombinations(from + 1, upTo, k - 1);
      CountCombinations(from + 1, upTo, k);
    }
  }

  // ---------- how many contain a given index ----------

  function CountWith(combos: seq<seq<nat>>, g: nat): nat {
    if combos == [] then 0 else CountWith(combos[..|combos| - 1], g) + (if g in combos[|combos| - 1] then 1 else 0)
  }

  lemma {:induction false} CountWithConcat(a: seq<seq<nat>>, b: seq<seq<nat>>, g: nat)
    ensures CountWith(a + b, g) == CountWith(a, g) + CountWith(b, g)
  {
    if b == [] {
      assert a + b == a;
    } else {
      CountWithConcat(a, b[..|b| - 1], g);
      assert (a + b)[..|a + b| - 1] == a + b[..|b| - 1];
    }
  }

  lemma {:induction false} CountWithPrefixed(from: nat, combos: seq<seq<nat>>, g: nat)
    ensures CountWith(Prefixed(from, combos), g) == if g == from then |combos| else CountWith(combos, g)
  {
    if combos != [] {
      var n, r := |combos| - 1, Prefixed(from, combos);
      CountWithPrefixed(from, combos[..n], g);
      assert r[..n] == Prefixed(from, combos[..n]);
      assert r[n] == [from] + combos[n];
    }
  }

  lemma {:induction false} CountWithNone(combos: seq<seq<nat>>, g: nat)
    requires forall j :: 0 <= j < |combos| ==> g !in combos[j]
    ensures CountWith(combos, g) == 0
  {
    if combos != [] { CountWithNone(combos[..|combos| - 1], g); }
  }

  lemma CountWithSplit(from: nat, upTo: nat, k: nat, g: nat)
    requires from < upTo && k > 0
    ensures CountWith(Combinations(from, upTo, k), g)
            == (if g == from then |Combinations(from + 1, upTo, k - 1)|
                else CountWith(Combinations(from + 1, upTo, k - 1), g))
               + CountWith(Combinations(from + 1, upTo, k), g)
  {
    var heads, tails := Combinations(from + 1, upTo, k - 1), Combinations(from + 1, upTo, k);
    CountWithConcat(Prefixed(from, heads), tails, g);
    CountWithPrefixed(from, heads, g);
  }

  lemma NotBefore(from: nat, upTo: nat, k: nat, g: nat)
    requires g < from <= upTo
    ensures CountWith(Combinations(from, upTo, k), g) == 0
  {
    var combos := Combinations(from, upTo, k);
    forall j | 0 <= j < |combos| ensures g !in combos[j] {
      assert combos[j] in combos;
      ListsCombinations(combos[j], from, upTo, k);
    }
    CountWithNone(combos, g);
  }

  lemma NoneInEmpty(from: nat, upTo: nat, g: nat)
    requires from <= upTo
    ensures CountWith(Combinations(from, upTo, 0), g) == 0
  {
    CountWithNone([[]], g);
  }

  /** Each index lies in C(n-1, k-1) of the C(n, k) combinations. */
  lemma {:induction false} CountContaining(from: nat, upTo: nat, k: nat, g: nat)
    requires from <= g < upTo && k > 0
    ensures CountWith(Combinations(from, upTo, k), g) == Choose(upTo - from - 1, k - 1)
    decreases upTo - from
  {
    hide Combinations, CountWith;
    CountWithSplit(from, upTo, k, g);
    if g == from {
      CountCombinations(from + 1, upTo, k - 1);
      NotBefore(from + 1, upTo, k, g);
    } else {
      CountContaining(from + 1, upTo, k, g);
      if k == 1 {
        NoneInEmpty(from + 1, upTo, g);
      } else {
        CountContaining(from + 1, upTo, k - 1, g);
      }
    }
  }

  // ---------- the order of the listing ----------

  /** Smaller at the first place where the two differ. */
  ghost predicate LexBefore(a: seq<nat>, b: seq<nat>) {
    exists i :: 0 <= i < |a| && i < |b| && a[i] < b[i] && forall j :: 0 <= j < i ==> a[j] == b[j]
  }

  lemma PrefixLexBefore(g: nat, a: seq<nat>, b: seq<nat>)
    requires LexBefore(a, b)
    ensures LexBefore([g] + a, [g] + b)
  {
    var i :| 0 <= i < |a| && i < |b| && a[i] < b[i] && forall j :: 0 <= j < i ==> a[j] == b[j];
    var x, y := [g] + a, [g] + b;
    assert x[i + 1] < y[i + 1] && forall j :: 0 <= j < i + 1 ==> x[j] == y[j];
  }

  /** The listing is in lexicographic order, strictly. */
  lemma {:induction false} ListedInOrder(from: nat, upTo: nat, k: nat, i: nat, j: nat)
    requires from <= upTo && i < j < |Combinations(from, upTo, k)|
    ensures LexBefore(Combinations(from, upTo, k)[i], Combinations(from, upTo, k)[j])
    decreases upTo - from
  {
    hide LexBefore;
    var all, heads, rest := Combinations(from, upTo, k), Combinations(from + 1, upTo, k - 1),
        Combinations(from + 1, upTo, k);
    var h := |heads|;
    if j < h {
      ListedInOrder(from + 1, upTo, k - 1, i, j);
      PrefixLexBefore(from, heads[i], heads[j]);
    } else if i >= h {
      ListedInOrder(from + 1, upTo, k, i - h, j - h);
    } else {
      assert all[i] == [from] + heads[i] && all[j] == rest[j - h] && rest[j - h] in rest;
      ListsCombinations(rest[j - h], from + 1, upTo, k);
      FirstDecides(all[i], all[j]);
    }
  }

  lemma FirstDecides(a: seq<nat>, b: seq<nat>)
    requires a != [] && b != [] && a[0] < b[0]
    ensures LexBefore(a, b)
  {
  }
}
