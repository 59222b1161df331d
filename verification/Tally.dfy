/** Counting the rows of an append-only table that satisfy a condition. */
module Tally {

  /** How many elements of `s` satisfy `p` (a `SELECT count(*) ... WHERE p`). */
  function Count<T>(s: seq<T>, p: T -> bool): (n: nat)
    ensures n <= |s|
  {
    if s == [] then 0
    else Count(s[..|s| - 1], p) + (if p(s[|s| - 1]) then 1 else 0)
  }

  /** Counting is the size of a set of positions. */
  lemma {:induction false} CountIsSize<T>(s: seq<T>, p: T -> bool)
    ensures Count(s, p) == |set i | 0 <= i < |s| && p(s[i])|
  {
    if s != [] {
      CountIsSize(s[..|s| - 1], p);
      OneMorePosition(s, p);
    }
  }

  lemma OneMorePosition<T>(s: seq<T>, p: T -> bool)
    requires s != []
    ensures var k := |s| - 1;
            (set i | 0 <= i < |s| && p(s[i])) == (set i | 0 <= i < k && p(s[..k][i])) + if p(s[k]) then {k} else {}
  {
    var k := |s| - 1;
    forall i | 0 <= i < k ensures s[..k][i] == s[i] {}
  }

  /** Positions are told by what the condition says of the elements. */
  lemma CountIs<T>(s: seq<T>, p: T -> bool, positions: set<int>)
    requires forall i :: i in positions <==> 0 <= i < |s| && p(s[i])
    ensures Count(s, p) == |positions|
  {
    CountIsSize(s, p);
    hide Count;
    assert positions == set i | 0 <= i < |s| && p(s[i]);
  }

  lemma CountAppend<T>(s: seq<T>, x: T, p: T -> bool)
    ensures Count(s + [x], p) == Count(s, p) + (if p(x) then 1 else 0)
  {
    assert (s + [x])[..|s|] == s;
  }

  lemma {:induction false} CountConcat<T>(a: seq<T>, b: seq<T>, p: T -> bool)
    ensures Count(a + b, p) == Count(a, p) + Count(b, p)
  {
    if b == [] {
      assert a + b == a;
    } else {
      var k := |b| - 1;
      CountConcat(a, b[..k], p);
      assert a + b == (a + b[..k]) + [b[k]];
      CountAppend(a + b[..k], b[k], p);
    }
  }

  lemma {:induction false} CountUpdate<T>(s: seq<T>, i: nat, x: T, p: T -> bool)
    requires i < |s|
    ensures Count(s[i := x], p) + (if p(s[i]) then 1 else 0) == Count(s, p) + (if p(x) then 1 else 0)
  {
    var k := |s| - 1;
    var t := s[i := x];
    if i == k {
      assert t[..k] == s[..k];
    } else {
      CountUpdate(s[..k], i, x, p);
      assert t[..k] == s[..k][i := x];
    }
  }

  /** A weaker condition is met by at least as many elements. */
  lemma {:induction false} CountWeaken<T>(s: seq<T>, p: T -> bool, q: T -> bool)
    requires forall x :: x in s && p(x) ==> q(x)
    ensures Count(s, p) <= Count(s, q)
  {
    if s != [] {
      var k := |s| - 1;
      assert forall x :: x in s[..k] ==> x in s;
      CountWeaken(s[..k], p, q);
      assert s[k] in s;
    }
  }

  /** What satisfies `p` satisfies `q` or `r`. */
  lemma {:induction false} CountSplit<T>(s: seq<T>, p: T -> bool, q: T -> bool, r: T -> bool)
    requires forall x :: x in s && p(x) ==> q(x) || r(x)
    ensures Count(s, p) <= Count(s, q) + Count(s, r)
  {
    if s != [] {
      var k := |s| - 1;
      assert forall x :: x in s[..k] ==> x in s;
      CountSplit(s[..k], p, q, r);
      assert s[k] in s;
    }
  }

  lemma {:induction false} CountNone<T>(s: seq<T>, p: T -> bool)
    requires forall x :: x in s ==> !p(x)
    ensures Count(s, p) == 0
  {
    if s != [] {
      var k := |s| - 1;
      assert forall x :: x in s[..k] ==> x in s;
      CountNone(s[..k], p);
      assert s[k] in s;
    }
  }

  /** Counting does not depend on the order of the elements. */
  lemma {:induction false} CountPermutation<T>(a: seq<T>, b: seq<T>, p: T -> bool)
    requires multiset(a) == multiset(b)
    ensures Count(a, p) == Count(b, p)
    decreases |a|
  {
    assert |multiset(a)| == |a| && |multiset(b)| == |b|;
    if a != [] {
      var k := |a| - 1;
      assert a == a[..k] + [a[k]];
      assert a[k] in multiset(b);
      var i :| 0 <= i < |b| && b[i] == a[k];
      assert b == b[..i] + [b[i]] + b[i + 1..];
      assert multiset(a[..k]) == multiset(a) - multiset{a[k]};
      assert multiset(b[..i] + b[i + 1..]) == multiset(b) - multiset{b[i]};
      CountPermutation(a[..k], b[..i] + b[i + 1..], p);
      CountConcat(b[..i], b[i + 1..], p);
      CountAppend(b[..i], b[i], p);
      CountConcat(b[..i] + [b[i]], b[i + 1..], p);
    }
  }
}
