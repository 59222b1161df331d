/** Holm-Bonferroni adjustment: the running maximum over sorted p-values, against its definition. */
module Holm {
  import opened StableSort
  import opened Tally

  function Min(a: real, b: real): real { if b < a then b else a }

  function Max(a: real, b: real): real { if b > a then b else a }

  predicate Leq(a: real, b: real) { a <= b }

  /** A p-value times the number of hypotheses still in play, capped at 1. */
  function Penalty(n: int, v: real): real { Min(1.0, Weighted(n, v)) }

  function Weighted(n: int, v: real): real { n as real * v }

  function Smaller(p: seq<real>, v: real): nat { Count(p, x => x < v) }

  /** A p-value's penalty among all: the hypotheses in play are those whose p-value is not smaller. */
  function Level(p: seq<real>, v: real): real { Penalty(|p| - Smaller(p, v), v) }

  /** The definition of an adjusted value: the largest penalty among p-values up to `q`, at least 0. */
  ghost predicate IsAdjusted(p: seq<real>, q: real, a: real) {
    && a >= 0.0
    && (forall v :: v in p && v <= q ==> Level(p, v) <= a)
    && (a == 0.0 || exists v :: v in p && v <= q && Level(p, v) == a)
  }

  /** The definition fixes the value, and depends on neither the order of the p-values nor which tie it is. */
  lemma AdjustedIsUnique(p: seq<real>, r: seq<real>, q: real, a: real, b: real)
    requires multiset(p) == multiset(r)
    requires IsAdjusted(p, q, a) && IsAdjusted(r, q, b)
    ensures a == b
  {
    hide Penalty, Smaller;
    LevelPermutes(p, r);
  }

  lemma LevelPermutes(p: seq<real>, r: seq<real>)
    requires multiset(p) == multiset(r)
    ensures |p| == |r| && forall v :: Level(p, v) == Level(r, v) && (v in p <==> v in r)
  {
    hide Penalty;
    assert |multiset(p)| == |p| && |multiset(r)| == |r|;
    forall v ensures Level(p, v) == Level(r, v) && (v in p <==> v in r) {
      CountPermutation(p, r, x => x < v);
      assert v in p <==> v in multiset(p);
      assert v in r <==> v in multiset(r);
    }
  }

  /** A larger p-value never gets a smaller adjustment. */
  lemma AdjustedMonotone(p: seq<real>, q: real, r: real, a: real, b: real)
    requires q <= r && IsAdjusted(p, q, a) && IsAdjusted(p, r, b)
    ensures a <= b
  {}

  /** Adjusting only ever raises a p-value, and never beyond 1 or Bonferroni's correction. */
  lemma AdjustedBounds(p: seq<real>, q: real, a: real)
    requires q in p && (forall v :: v in p ==> 0.0 <= v <= 1.0) && IsAdjusted(p, q, a)
    ensures q <= a <= 1.0 && a <= |p| as real * q
  {
    hide Penalty, Smaller, IsAdjusted, Level;
    forall v | v in p && v <= q ensures v <= Level(p, v) <= Penalty(|p|, q) { LevelBounds(p, v, q); }
    LevelBounds(p, q, q);
    Between(p, q, a, Penalty(|p|, q));
    PenaltyCaps(|p|, q);
  }

  lemma PenaltyCaps(n: int, v: real)
    ensures Penalty(n, v) <= 1.0 && Penalty(n, v) <= n as real * v
  {}

  /** How many p-values are not smaller. */
  function NotSmaller(p: seq<real>, v: real): nat { |set i | 0 <= i < |p| && p[i] >= v| }

  /** A p-value's penalty `x`: times the number of p-values that are not smaller, capped at 1. */
  lemma LevelIs(p: seq<real>, v: real, m: real, x: real)
    requires m == NotSmaller(p, v) as real && x == m * v
    ensures Level(p, v) == if x > 1.0 then 1.0 else x
  {
    NotSmallerIs(p, v);
    hide NotSmaller, Smaller;
    PenaltyIs(NotSmaller(p, v), v, m, x);
  }

  lemma NotSmallerIs(p: seq<real>, v: real)
    ensures |p| - Smaller(p, v) == NotSmaller(p, v)
  {
    SmallerOrNot(p, v);
    CountIs(p, x => x >= v, set i | 0 <= i < |p| && p[i] >= v);
    hide Count, Smaller;
  }

  lemma PenaltyIs(n: int, v: real, m: real, x: real)
    requires m == n as real && x == m * v
    ensures Penalty(n, v) == if x > 1.0 then 1.0 else x
  {}

  lemma {:induction false} SmallerOrNot(p: seq<real>, v: real)
    ensures Smaller(p, v) + Count(p, x => x >= v) == |p|
  {
    if p != [] { SmallerOrNot(p[..|p| - 1], v); }
  }

  lemma Between(p: seq<real>, q: real, a: real, upper: real)
    requires q in p && IsAdjusted(p, q, a) && upper >= 0.0
    requires forall v :: v in p && v <= q ==> v <= Level(p, v) <= upper
    ensures q <= a <= upper
  {
    hide Penalty, Smaller;
  }

  lemma LevelBounds(p: seq<real>, v: real, q: real)
    requires v in p && 0.0 <= v <= q <= 1.0
    ensures v <= Level(p, v) <= Penalty(|p|, q)
  {
    hide Penalty, Smaller;
    NotAllSmaller(p, v);
    PenaltyBounds(|p| - Smaller(p, v), |p|, v, q);
  }

  lemma PenaltyBounds(n: int, m: int, v: real, q: real)
    requires 1 <= n <= m && 0.0 <= v <= q <= 1.0
    ensures v <= Penalty(n, v) <= Penalty(m, q)
  {
    var x, y := n as real, m as real;
    Stretch(x, y, v, q);
    assert Weighted(n, v) == x * v && Weighted(m, q) == y * q;
    hide Weighted;
  }

  lemma Stretch(x: real, y: real, v: real, q: real)
    requires 1.0 <= x <= y && 0.0 <= v <= q
    ensures v <= x * v <= y * q
  {
    assert x * v - v == (x - 1.0) * v;
    assert y * q - x * v == (y - x) * q + x * (q - v);
  }

  lemma Scale(a: real, b: real, c: real)
    requires a >= b && c >= 0.0
    ensures a * c >= b * c
  {}

  lemma {:induction false} NotAllSmaller(p: seq<real>, q: real)
    requires q in p
    ensures Smaller(p, q) < |p|
  {
    var k := |p| - 1;
    if p[k] != q { NotAllSmaller(p[..k], q); }
  }

  // --- The sweep over the sorted p-values -------------------------------------------------------

  /** The running maximum after `n` ranks. */
  function RunMax(s: seq<real>, n: nat): (m: real)
    requires n <= |s|
    ensures m >= 0.0
  {
    if n == 0 then 0.0 else Max(RunMax(s, n - 1), Penalty(|s| - (n - 1), s[n - 1]))
  }

  lemma {:induction false} RunMaxIs(s: seq<real>, n: nat)
    requires n <= |s|
    ensures forall r :: 0 <= r < n ==> RunMax(s, n) >= Penalty(|s| - r, s[r])
    ensures RunMax(s, n) == 0.0 || exists r :: 0 <= r < n && RunMax(s, n) == Penalty(|s| - r, s[r])
  {
    hide Penalty;
    if n > 0 { RunMaxIs(s, n - 1); }
  }

  lemma {:induction false} CountIsRank(s: seq<real>, v: real)
    requires Sorted(s, Leq)
    ensures var n := Smaller(s, v);
            (forall k :: 0 <= k < n ==> s[k] < v) && (forall k :: n <= k < |s| ==> s[k] >= v)
  {
    if s != [] {
      var k := |s| - 1;
      CountIsRank(s[..k], v);
      forall i | 0 <= i < k ensures s[i] <= s[k] { assert Leq(s[i], s[k]); }
      if s[k] < v {
        forall i | 0 <= i < k ensures s[..k][i] < v {}
        assert Smaller(s[..k], v) == k by { CountAll(s[..k], v); }
      }
    }
  }

  lemma {:induction false} CountAll(s: seq<real>, v: real)
    requires forall k :: 0 <= k < |s| ==> s[k] < v
    ensures Smaller(s, v) == |s|
  {
    if s != [] { CountAll(s[..|s| - 1], v); }
  }

  /** The running maximum at any rank is the adjusted value of the p-value there. */
  lemma RunMaxIsAdjusted(s: seq<real>, r: nat)
    requires Sorted(s, Leq) && r < |s|
    ensures IsAdjusted(s, s[r], RunMax(s, r + 1))
  {
    hide Penalty, Smaller;
    var a := RunMax(s, r + 1);
    RunMaxIs(s, r + 1);
    forall v | v in s && v <= s[r] ensures Level(s, v) <= a { LevelReached(s, r, v, a); }
    if a != 0.0 {
      var k :| 0 <= k < r + 1 && a == Penalty(|s| - k, s[k]);
      assert k == r || Leq(s[k], s[r]);
      assert s[k] in s;
      RankPenalty(s, k);
      assert Level(s, s[k]) <= a by { LevelReached(s, r, s[k], a); }
    }
  }

  /** The first rank of a tie carries the tie's whole penalty. */
  lemma LevelReached(s: seq<real>, r: nat, v: real, a: real)
    requires Sorted(s, Leq) && r < |s| && v in s && v <= s[r]
    requires forall k :: 0 <= k < r + 1 ==> a >= Penalty(|s| - k, s[k])
    ensures Level(s, v) <= a
  {
    hide Penalty, Smaller;
    var n := Smaller(s, v);
    CountIsRank(s, v);
    var i :| 0 <= i < |s| && s[i] == v;
    assert n <= i && n <= r;
    assert n == i || Leq(s[n], s[i]);
    assert s[n] == v;
  }

  /** A rank never carries more than the penalty of its p-value, unless both are at most 0. */
  lemma RankPenalty(s: seq<real>, k: nat)
    requires Sorted(s, Leq) && k < |s|
    ensures var x := Penalty(|s| - k, s[k]); x <= Level(s, s[k]) || x <= 0.0
  {
    hide Smaller;
    CountIsRank(s, s[k]);
    assert Smaller(s, s[k]) <= k;
    PenaltyShrinks(|s| - k, |s| - Smaller(s, s[k]), s[k]);
  }

  lemma PenaltyShrinks(n: int, m: int, v: real)
    requires 0 <= n <= m
    ensures Penalty(n, v) <= Penalty(m, v) || Penalty(n, v) <= 0.0
  {
    var x, y := n as real, m as real;
    Shrink(x, y, v);
    assert Weighted(n, v) == x * v && Weighted(m, v) == y * v;
    hide Weighted;
  }

  lemma Shrink(x: real, y: real, v: real)
    requires 0.0 <= x <= y
    ensures x * v <= y * v || x * v <= 0.0
  {
    if v >= 0.0 {
      assert y * v - x * v == (y - x) * v;
    } else {
      assert x * v == -(x * -v);
    }
  }

  // --- holm_bonferroni --------------------------------------------------------------------------

  datatype Ranked = Ranked(index: nat, p: real)

  datatype Corrected = Corrected(adjusted: real, reject: bool)

  predicate ByP(a: Ranked, b: Ranked) { a.p <= b.p }

  function Indexed(p: seq<real>): seq<Ranked> { seq(|p|, i requires 0 <= i < |p| => Ranked(i, p[i])) }

  function Project(s: seq<Ranked>): seq<real> { seq(|s|, i requires 0 <= i < |s| => s[i].p) }

  lemma {:induction false} ProjectInsert(x: Ranked, s: seq<Ranked>)
    ensures Project(Insert(x, s, ByP)) == Insert(x.p, Project(s), Leq)
  {
    if s == [] {
      assert Project([x]) == [x.p];
    } else if ByP(x, s[0]) {
      assert Project([x] + s) == [x.p] + Project(s);
    } else {
      ProjectInsert(x, s[1..]);
      assert Project(s)[1..] == Project(s[1..]);
      assert Project([s[0]] + Insert(x, s[1..], ByP)) == [s[0].p] + Project(Insert(x, s[1..], ByP));
    }
  }

  /** Sorting indices by p-value sorts the p-values. */
  lemma {:induction false} ProjectSort(s: seq<Ranked>)
    ensures Project(Sort(s, ByP)) == Sort(Project(s), Leq)
  {
    if s != [] {
      ProjectSort(s[1..]);
      ProjectInsert(s[0], Sort(s[1..], ByP));
      assert Project(s)[1..] == Project(s[1..]);
    }
  }

  /** What the sweep knows of the sorted order: it ranks `p`'s values and names every index. */
  ghost predicate Orders(order: seq<Ranked>, p: seq<real>) {
    && |order| == |p| && Sorted(Project(order), Leq) && multiset(Project(order)) == multiset(p)
    && (forall x :: x in order ==> x.index < |p| && p[x.index] == x.p)
    && (forall i :: 0 <= i < |p| ==> Ranked(i, p[i]) in order)
  }

  lemma SortedOrders(p: seq<real>)
    ensures Orders(Sort(Indexed(p), ByP), p)
  {
    var s := Indexed(p);
    SortIsSort(s, ByP);
    SortMembers(s, ByP);
    ProjectSort(s);
    assert Project(s) == p;
    SortIsSort(p, Leq);
    forall i | 0 <= i < |p| ensures Ranked(i, p[i]) in s { assert s[i] == Ranked(i, p[i]); }
  }

  lemma RankIsAdjusted(order: seq<Ranked>, p: seq<real>, r: nat)
    requires Orders(order, p) && r < |p|
    ensures IsAdjusted(p, order[r].p, RunMax(Project(order), r + 1))
  {
    hide Penalty, Smaller;
    RunMaxIsAdjusted(Project(order), r);
    LevelPermutes(Project(order), p);
  }

  method AdjustInOrder(p: seq<real>, order: seq<Ranked>) returns (adjusted: array<real>)
    requires Orders(order, p)
    ensures adjusted.Length == |p| && forall i :: 0 <= i < |p| ==> IsAdjusted(p, p[i], adjusted[i])
  {
    hide IsAdjusted, Penalty;
    var m := |p|;
    adjusted := new real[m](_ => 0.0);
    var running := 0.0;
    for rank := 0 to m
      invariant running == RunMax(Project(order), rank)
      invariant forall k :: 0 <= k < rank ==> IsAdjusted(p, order[k].p, adjusted[order[k].index])
    {
      var x := order[rank];
      assert x in order;
      var adj := Penalty(m - rank, x.p);
      running := Max(running, adj);
      RankIsAdjusted(order, p, rank);
      forall k | 0 <= k < rank && order[k].index == x.index ensures order[k].p == x.p { assert order[k] in order; }
      forall k | 0 <= k < rank ensures order[k].index < m { assert order[k] in order; }
      adjusted[x.index] := running;
    }
    forall i | 0 <= i < |p| ensures IsAdjusted(p, p[i], adjusted[i]) {
      var k :| 0 <= k < |order| && order[k] == Ranked(i, p[i]);
    }
  }

  /** Every result is the adjusted value by definition, and rejects when below alpha. */
  method HolmBonferroni(p: seq<real>, alpha: real) returns (out: seq<Corrected>)
    ensures |out| == |p|
    ensures forall i :: 0 <= i < |p| ==> IsAdjusted(p, p[i], out[i].adjusted) && (out[i].reject <==> out[i].adjusted < alpha)
  {
    if |p| == 0 { return []; }
    SortedOrders(p);
    var adjusted := AdjustInOrder(p, Sort(Indexed(p), ByP));
    out := seq(|p|, i requires 0 <= i < adjusted.Length reads adjusted => Corrected(adjusted[i], adjusted[i] < alpha));
  }

  // --- The step-down procedure ------------------------------------------------------------------

  /** Walk up the sorted p-values rejecting while the penalised value is below alpha; how many were rejected. */
  function StepDown(s: seq<real>, alpha: real, r: nat): nat
    requires r <= |s|
    decreases |s| - r
  {
    if r < |s| && Weighted(|s| - r, s[r]) < alpha then StepDown(s, alpha, r + 1) else r
  }

  lemma {:induction false} StepDownIs(s: seq<real>, alpha: real, r: nat)
    requires r <= |s|
    ensures var n := StepDown(s, alpha, r);
            && r <= n <= |s| && (forall k :: r <= k < n ==> Weighted(|s| - k, s[k]) < alpha)
            && (n < |s| ==> Weighted(|s| - n, s[n]) >= alpha)
    decreases |s| - r
  {
    hide Weighted;
    if r < |s| && Weighted(|s| - r, s[r]) < alpha { StepDownIs(s, alpha, r + 1); }
  }

  /** At a level up to 1 the adjustment rejects a rank exactly when the step-down procedure does. */
  lemma RejectsIffStepDown(s: seq<real>, alpha: real, r: nat)
    requires Sorted(s, Leq) && (forall v :: v in s ==> 0.0 <= v <= 1.0) && alpha <= 1.0 && r < |s|
    ensures RunMax(s, r + 1) < alpha <==> r < StepDown(s, alpha, 0)
  {
    hide Weighted, StepDown, RunMax;
    StepDownIs(s, alpha, 0);
    RunMaxIs(s, r + 1);
    assert s[0] in s;
    WeightedNonNegative(|s|, s[0]);
  }

  lemma WeightedNonNegative(n: nat, v: real)
    requires v >= 0.0
    ensures Weighted(n, v) >= 0.0
  {
    Scale(n as real, 0.0, v);
  }

  ghost predicate PValues(p: seq<real>) { forall v :: v in p ==> 0.0 <= v <= 1.0 }

  /** On these p-values, adjusting and comparing rejects the same hypotheses as stepping down. */
  ghost predicate Agrees(p: seq<real>, alpha: real) {
    var s := Sort(p, Leq);
    forall r, a :: 0 <= r < |s| && IsAdjusted(p, s[r], a) ==> (a < alpha <==> r < StepDown(s, alpha, 0))
  }

  lemma AgreesUpToOne(p: seq<real>, alpha: real)
    requires PValues(p) && alpha <= 1.0
    ensures Agrees(p, alpha)
  {
    var s := Sort(p, Leq);
    SortIsSort(p, Leq);
    SortMembers(p, Leq);
    forall r, a | 0 <= r < |s| && IsAdjusted(p, s[r], a) ensures a < alpha <==> r < StepDown(s, alpha, 0) {
      RunMaxIsAdjusted(s, r);
      AdjustedIsUnique(p, s, s[r], a, RunMax(s, r + 1));
      RejectsIffStepDown(s, alpha, r);
    }
  }

  lemma {:induction false} SortOfOnes(n: nat)
    ensures Sort(seq(n, _ => 1.0), Leq) == seq(n, _ => 1.0)
  {
    if n > 0 {
      assert seq(n, _ => 1.0)[1..] == seq(n - 1, _ => 1.0);
      SortOfOnes(n - 1);
      assert [1.0] + seq(n - 1, _ => 1.0) == seq(n, _ => 1.0);
    }
  }

  /** The cap at 1 makes the two differ at every level above 1, so they agree on all inputs exactly up to 1. */
  lemma AgreesOnAllIff(alpha: real)
    ensures alpha <= 1.0 <==> forall p: seq<real> :: PValues(p) ==> Agrees(p, alpha)
  {
    if alpha <= 1.0 {
      forall p: seq<real> | PValues(p) ensures Agrees(p, alpha) { AgreesUpToOne(p, alpha); }
    } else {
      var n := alpha.Floor + 1;
      var p: seq<real> := seq(n, _ => 1.0);
      SortOfOnes(n);
      RunMaxIsAdjusted(p, 0);
      assert RunMax(p, 1) == 1.0;
      assert StepDown(p, alpha, 0) == 0;
      assert PValues(p) && !Agrees(p, alpha);
    }
  }
}
