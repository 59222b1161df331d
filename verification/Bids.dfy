/** Bid resolution: at most one proposal per target goes on to act in a tick. */
module Bids {
  import opened Actions
  import opened StableSort

  predicate Reactive(a: Agent) { a in {Recovery, Schema, Optimization} }

  function Priority(a: Agent): int
    requires Reactive(a)
  {
    match a
    case Recovery => 3
    case Schema => 2
    case Optimization => 1
  }

  /** Proposals come from the reactive agents only; monitoring never bids. */
  type Bid = a: Action | Reactive(a.agent) witness Action(Recovery, Replay, "", 0.0)

  /** `p` ranks no lower than `q`: higher agent priority, then higher confidence. */
  predicate AtLeast(p: Bid, q: Bid) {
    Priority(p.agent) > Priority(q.agent)
    || (Priority(p.agent) == Priority(q.agent) && p.confidence >= q.confidence)
  }

  lemma AtLeastIsTotal()
    ensures TotalPreorder(AtLeast)
  {}

  /** The bids for one target, in proposal order. */
  function For(ps: seq<Bid>, t: string): seq<Bid> {
    if ps == [] then []
    else For(ps[..|ps| - 1], t) + (if ps[|ps| - 1].target == t then [ps[|ps| - 1]] else [])
  }

  /** The targets bid for, in order of first appearance. */
  function Targets(ps: seq<Bid>): seq<string> {
    if ps == [] then []
    else
      var r := Targets(ps[..|ps| - 1]);
      if ps[|ps| - 1].target in r then r else r + [ps[|ps| - 1].target]
  }

  function Ranked(ps: seq<Bid>, t: string): seq<Bid> { Sort(For(ps, t), AtLeast) }

  lemma {:induction false} ForMembers(ps: seq<Bid>, t: string, x: Bid)
    ensures x in For(ps, t) <==> x in ps && x.target == t
  {
    if ps != [] {
      var k := |ps| - 1;
      ForMembers(ps[..k], t, x);
      assert ps == ps[..k] + [ps[k]];
    }
  }

  lemma {:induction false} TargetsMembers(ps: seq<Bid>, x: Bid)
    requires x in ps
    ensures x.target in Targets(ps)
  {
    var k := |ps| - 1;
    assert ps == ps[..k] + [ps[k]];
    if x != ps[k] { TargetsMembers(ps[..k], x); }
  }

  lemma {:induction false} TargetsHaveBids(ps: seq<Bid>, t: string)
    requires t in Targets(ps)
    ensures For(ps, t) != []
  {
    var k := |ps| - 1;
    if t in Targets(ps[..k]) { TargetsHaveBids(ps[..k], t); }
  }

  lemma {:induction false} TargetsDistinct(ps: seq<Bid>)
    ensures forall i, j :: 0 <= i < j < |Targets(ps)| ==> Targets(ps)[i] != Targets(ps)[j]
    ensures |Targets(ps)| <= |ps|
  {
    if ps != [] { TargetsDistinct(ps[..|ps| - 1]); }
  }

  lemma RankedFacts(ps: seq<Bid>, t: string)
    ensures Sorted(Ranked(ps, t), AtLeast)
    ensures multiset(Ranked(ps, t)) == multiset(For(ps, t))
    ensures |Ranked(ps, t)| == |For(ps, t)|
  {
    AtLeastIsTotal();
    SortIsSort(For(ps, t), AtLeast);
  }

  lemma RankedMembers(ps: seq<Bid>, t: string, x: Bid)
    ensures x in Ranked(ps, t) <==> x in ps && x.target == t
  {
    AtLeastIsTotal();
    SortMembers(For(ps, t), AtLeast);
    ForMembers(ps, t, x);
  }

  /** The winning bid for a target somebody bid for. */
  function Winner(ps: seq<Bid>, t: string): Bid
    requires t in Targets(ps)
  {
    RankedFacts(ps, t);
    TargetsHaveBids(ps, t);
    Ranked(ps, t)[0]
  }

  function Winners(ps: seq<Bid>, ts: seq<string>): seq<Bid>
    requires forall t :: t in ts ==> t in Targets(ps)
  {
    if ts == [] then [] else Winners(ps, ts[..|ts| - 1]) + [Winner(ps, ts[|ts| - 1])]
  }

  /** The bids that lose, target by target, best first. */
  function Lost(ps: seq<Bid>, ts: seq<string>): seq<Bid>
    requires forall t :: t in ts ==> t in Targets(ps)
  {
    if ts == [] then []
    else
      RankedFacts(ps, ts[|ts| - 1]);
      TargetsHaveBids(ps, ts[|ts| - 1]);
      Lost(ps, ts[..|ts| - 1]) + Ranked(ps, ts[|ts| - 1])[1..]
  }

  datatype Outbid = Outbid(winner: Agent, target: string)

  function NameAll(m: map<Agent, Outbid>, why: Outbid, losing: seq<Bid>): map<Agent, Outbid> {
    if losing == [] then m
    else NameAll(m, why, losing[..|losing| - 1])[losing[|losing| - 1].agent := why]
  }

  function Named(ps: seq<Bid>, ts: seq<string>): map<Agent, Outbid>
    requires forall t :: t in ts ==> t in Targets(ps)
  {
    if ts == [] then map[]
    else
      var t := ts[|ts| - 1];
      RankedFacts(ps, t);
      TargetsHaveBids(ps, t);
      NameAll(Named(ps, ts[..|ts| - 1]), Outbid(Winner(ps, t).agent, t), Ranked(ps, t)[1..])
  }

  /** What the loop acts on after negotiation, and what each loser is told. */
  function Resolve(ps: seq<Bid>): seq<Bid> { Winners(ps, Targets(ps)) }
  function Losers(ps: seq<Bid>): map<Agent, Outbid> { Named(ps, Targets(ps)) }

  lemma OneMoreTarget(ps: seq<Bid>, ts: seq<string>, j: nat)
    requires j < |ts| && forall t :: t in ts ==> t in Targets(ps)
    ensures For(ps, ts[j]) != [] && |Ranked(ps, ts[j])| == |For(ps, ts[j])|
    ensures Winners(ps, ts[..j + 1]) == Winners(ps, ts[..j]) + [Ranked(ps, ts[j])[0]]
    ensures Named(ps, ts[..j + 1])
            == NameAll(Named(ps, ts[..j]), Outbid(Ranked(ps, ts[j])[0].agent, ts[j]), Ranked(ps, ts[j])[1..])
  {
    assert ts[..j + 1][..j] == ts[..j];
    RankedFacts(ps, ts[j]);
    TargetsHaveBids(ps, ts[j]);
  }

  /** Group the bids by target, rank each group, keep the head and name the rest as outbid. */
  method ResolveConflicts(proposals: seq<Bid>) returns (winners: seq<Bid>, losers: map<Agent, Outbid>)
    ensures winners == Resolve(proposals)
    ensures losers == Losers(proposals)
  {
    var targets, byTarget := GroupByTarget(proposals);
    winners, losers := [], map[];
    for j := 0 to |targets|
      invariant winners == Winners(proposals, targets[..j])
      invariant losers == Named(proposals, targets[..j])
    {
      var target := targets[j];
      var contenders := byTarget[target];
      OneMoreTarget(proposals, targets, j);
      hide Winners, Named, Targets, For;
      RankedFacts(proposals, target);
      if |contenders| == 1 {
        winners := winners + [contenders[0]];
        assert Sort(contenders, AtLeast)[1..] == [];
      } else {
        var ranked := Sort(contenders, AtLeast);
        var winner := ranked[0];
        winners := winners + [winner];
        losers := NameLosers(losers, Outbid(winner.agent, target), ranked);
      }
    }
    assert targets[..|targets|] == targets;
  }

  /** Tell everyone below the head of a ranking who outbid them. */
  method NameLosers(named: map<Agent, Outbid>, why: Outbid, ranked: seq<Bid>) returns (losers: map<Agent, Outbid>)
    requires ranked != []
    ensures losers == NameAll(named, why, ranked[1..])
  {
    losers := named;
    for k := 1 to |ranked|
      invariant losers == NameAll(named, why, ranked[1..k])
    {
      assert ranked[1..k + 1][..k - 1] == ranked[1..k];
      losers := losers[ranked[k].agent := why];
    }
    assert ranked[1..|ranked|] == ranked[1..];
  }

  /** The insertion-ordered dictionary from target to the bids for it. */
  method GroupByTarget(proposals: seq<Bid>) returns (targets: seq<string>, byTarget: map<string, seq<Bid>>)
    ensures targets == Targets(proposals)
    ensures forall t :: t in targets ==> t in byTarget && byTarget[t] == For(proposals, t)
  {
    targets, byTarget := [], map[];
    for i := 0 to |proposals|
      invariant targets == Targets(proposals[..i])
      invariant forall t :: t in byTarget <==> t in targets
      invariant forall t :: t in byTarget ==> byTarget[t] == For(proposals[..i], t)
    {
      var p := proposals[i];
      assert proposals[..i + 1][..i] == proposals[..i];
      if p.target !in byTarget {
        NoBidsElsewhere(proposals[..i], p.target);
        targets := targets + [p.target];
        byTarget := byTarget[p.target := []];
      }
      byTarget := byTarget[p.target := byTarget[p.target] + [p]];
    }
    assert proposals[..|proposals|] == proposals;
  }

  lemma {:induction false} NoBidsElsewhere(ps: seq<Bid>, t: string)
    requires t !in Targets(ps)
    ensures For(ps, t) == []
  {
    if ps != [] { NoBidsElsewhere(ps[..|ps| - 1], t); }
  }

  // --- What negotiation promises ---------------------------------------------------------------

  lemma {:induction false} WinnersAt(ps: seq<Bid>, ts: seq<string>, i: nat)
    requires forall t :: t in ts ==> t in Targets(ps)
    requires i < |ts|
    ensures |Winners(ps, ts)| == |ts| && Winners(ps, ts)[i] == Winner(ps, ts[i])
  {
    hide Winner, Targets;
    var k := |ts| - 1;
    if i < k {
      WinnersAt(ps, ts[..k], i);
    } else if k > 0 {
      WinnersAt(ps, ts[..k], 0);
    }
  }

  /** The winner of a target is one of its contenders and maximal among them. */
  lemma WinnerIsMaximal(ps: seq<Bid>, t: string)
    requires t in Targets(ps)
    ensures Winner(ps, t) in ps && Winner(ps, t).target == t
    ensures forall q :: q in ps && q.target == t ==> AtLeast(Winner(ps, t), q)
  {
    RankedFacts(ps, t);
    TargetsHaveBids(ps, t);
    var r := Ranked(ps, t);
    RankedMembers(ps, t, r[0]);
    forall q | q in ps && q.target == t ensures AtLeast(Winner(ps, t), q) {
      RankedMembers(ps, t, q);
    }
  }

  lemma WinnerOfTarget(ps: seq<Bid>, t: string) returns (i: nat)
    requires t in Targets(ps)
    ensures i < |Resolve(ps)| == |Targets(ps)| && Targets(ps)[i] == t && Resolve(ps)[i] == Winner(ps, t)
  {
    i :| 0 <= i < |Targets(ps)| && Targets(ps)[i] == t;
    WinnersAt(ps, Targets(ps), i);
  }

  lemma TargetOfWinner(ps: seq<Bid>, i: nat)
    requires i < |Resolve(ps)|
    ensures i < |Targets(ps)| && Resolve(ps)[i] == Winner(ps, Targets(ps)[i])
    ensures Resolve(ps)[i].target == Targets(ps)[i]
  {
    assert Targets(ps) != [];
    WinnersAt(ps, Targets(ps), 0);
    WinnersAt(ps, Targets(ps), i);
    WinnerIsMaximal(ps, Targets(ps)[i]);
  }

  /** Every target bid for has exactly one winner, and that bid is maximal among its contenders. */
  lemma OneMaximalWinnerPerTarget(ps: seq<Bid>, p: Bid) returns (i: nat)
    requires p in ps
    ensures i < |Resolve(ps)| && Resolve(ps)[i].target == p.target && Resolve(ps)[i] in ps
    ensures forall q :: q in ps && q.target == p.target ==> AtLeast(Resolve(ps)[i], q)
    ensures forall j :: 0 <= j < |Resolve(ps)| && j != i ==> Resolve(ps)[j].target != p.target
  {
    TargetsMembers(ps, p);
    i := WinnerOfTarget(ps, p.target);
    WinnerIsMaximal(ps, p.target);
    TargetsDistinct(ps);
    forall j | 0 <= j < |Resolve(ps)| && j != i ensures Resolve(ps)[j].target != p.target {
      TargetOfWinner(ps, j);
    }
  }

  /** On a contested target recovery beats schema and schema beats optimization; within an agent confidence decides. */
  lemma WinnersRank(ps: seq<Bid>, p: Bid) returns (i: nat)
    requires p in ps
    ensures i < |Resolve(ps)| && Resolve(ps)[i].target == p.target && Resolve(ps)[i] in ps
    ensures p.agent == Recovery ==> Resolve(ps)[i].agent == Recovery
    ensures p.agent == Schema ==> Resolve(ps)[i].agent in {Recovery, Schema}
    ensures Resolve(ps)[i].agent == p.agent ==> Resolve(ps)[i].confidence >= p.confidence
  {
    i := OneMaximalWinnerPerTarget(ps, p);
    assert AtLeast(Resolve(ps)[i], p);
  }

  ghost function Grouped(ps: seq<Bid>, ts: seq<string>): multiset<Bid> {
    if ts == [] then multiset{} else Grouped(ps, ts[..|ts| - 1]) + multiset(For(ps, ts[|ts| - 1]))
  }

  lemma ForAppend(ps: seq<Bid>, p: Bid, t: string)
    ensures multiset(For(ps + [p], t)) == multiset(For(ps, t)) + if p.target == t then multiset{p} else multiset{}
  {
    assert (ps + [p])[..|ps|] == ps;
  }

  ghost predicate DistinctTargets(ts: seq<string>) { forall i, j :: 0 <= i < j < |ts| ==> ts[i] != ts[j] }

  lemma LastTarget(ts: seq<string>, t: string)
    requires ts != [] && DistinctTargets(ts)
    ensures var k := |ts| - 1;
            && DistinctTargets(ts[..k]) && ts[k] !in ts[..k] && (t in ts <==> t in ts[..k] || t == ts[k])
  {}

  lemma {:induction false} GroupedAppend(ps: seq<Bid>, p: Bid, ts: seq<string>)
    requires DistinctTargets(ts)
    ensures Grouped(ps + [p], ts) == Grouped(ps, ts) + (if p.target in ts then multiset{p} else multiset{})
  {
    hide For, DistinctTargets;
    if ts != [] {
      var k := |ts| - 1;
      LastTarget(ts, p.target);
      GroupedAppend(ps, p, ts[..k]);
      ForAppend(ps, p, ts[k]);
    }
  }

  lemma {:induction false} GroupsCoverAll(ps: seq<Bid>)
    ensures Grouped(ps, Targets(ps)) == multiset(ps)
  {
    if ps != [] {
      var q, p := ps[..|ps| - 1], ps[|ps| - 1];
      assert q + [p] == ps;
      GroupsCoverAll(q);
      OneMoreGrouped(q, p);
    }
  }

  lemma OneMoreGrouped(ps: seq<Bid>, p: Bid)
    ensures Grouped(ps + [p], Targets(ps + [p])) == Grouped(ps, Targets(ps)) + multiset{p}
  {
    var r := Targets(ps);
    TargetsDistinct(ps);
    assert (ps + [p])[..|ps|] == ps;
    GroupedAppend(ps, p, r);
    if p.target !in r {
      NoBidsElsewhere(ps, p.target);
      assert Targets(ps + [p]) == r + [p.target];
      assert (r + [p.target])[..|r|] == r;
      assert For(ps + [p], p.target) == [p];
    }
  }

  lemma {:induction false} SplitGroups(ps: seq<Bid>, ts: seq<string>)
    requires forall t :: t in ts ==> t in Targets(ps)
    ensures multiset(Winners(ps, ts)) + multiset(Lost(ps, ts)) == Grouped(ps, ts)
  {
    if ts != [] {
      var k := |ts| - 1;
      SplitGroups(ps, ts[..k]);
      RankedFacts(ps, ts[k]);
      TargetsHaveBids(ps, ts[k]);
      assert Winners(ps, ts) == Winners(ps, ts[..k]) + [Ranked(ps, ts[k])[0]];
      assert Lost(ps, ts) == Lost(ps, ts[..k]) + Ranked(ps, ts[k])[1..];
      assert Grouped(ps, ts) == Grouped(ps, ts[..k]) + multiset(Ranked(ps, ts[k]));
      hide *;
      HeadAndTail(Winners(ps, ts[..k]), Lost(ps, ts[..k]), Ranked(ps, ts[k]));
    }
  }

  lemma HeadAndTail(w: seq<Bid>, l: seq<Bid>, r: seq<Bid>)
    requires r != []
    ensures multiset(w + [r[0]]) + multiset(l + r[1..]) == multiset(w) + multiset(l) + multiset(r)
  {
    assert r == [r[0]] + r[1..];
  }

  /** Nothing is dropped or acted on twice: winners and losers together are the proposals. */
  lemma WinnersAndLosersPartition(ps: seq<Bid>)
    ensures multiset(Resolve(ps)) + multiset(Lost(ps, Targets(ps))) == multiset(ps)
  {
    SplitGroups(ps, Targets(ps));
    GroupsCoverAll(ps);
  }

  predicate OnePerAgent(ps: seq<Bid>) {
    forall i, j :: 0 <= i < j < |ps| ==> ps[i].agent != ps[j].agent
  }

  lemma {:induction false} NameAllFacts(m: map<Agent, Outbid>, why: Outbid, losing: seq<Bid>, a: Agent)
    ensures a in NameAll(m, why, losing) <==> a in m || exists p :: p in losing && p.agent == a
    ensures (exists p :: p in losing && p.agent == a) ==> NameAll(m, why, losing)[a] == why
    ensures a in m && !(exists p :: p in losing && p.agent == a) ==> NameAll(m, why, losing)[a] == m[a]
  {
    if losing != [] {
      var k := |losing| - 1;
      NameAllFacts(m, why, losing[..k], a);
      assert losing == losing[..k] + [losing[k]];
      assert losing[k] in losing;
    }
  }

  lemma {:induction false} LostAreNamed(ps: seq<Bid>, ts: seq<string>, p: Bid)
    requires forall t :: t in ts ==> t in Targets(ps)
    requires OnePerAgent(ps)
    requires p in Lost(ps, ts)
    ensures p in ps && p.target in ts
    ensures p.agent in Named(ps, ts) && Named(ps, ts)[p.agent] == Outbid(Winner(ps, p.target).agent, p.target)
  {
    var k := |ts| - 1;
    var t := ts[k];
    RankedFacts(ps, t);
    TargetsHaveBids(ps, t);
    var rest := Ranked(ps, t)[1..];
    NameAllFacts(Named(ps, ts[..k]), Outbid(Winner(ps, t).agent, t), rest, p.agent);
    if p in rest {
      RankedMembers(ps, t, p);
    } else {
      LostAreNamed(ps, ts[..k], p);
      if exists q :: q in rest && q.agent == p.agent {
        var q :| q in rest && q.agent == p.agent;
        RankedMembers(ps, t, q);
        SameAgentSameBid(ps, p, q);
      }
    }
  }

  lemma SameAgentSameBid(ps: seq<Bid>, p: Bid, q: Bid)
    requires OnePerAgent(ps) && p in ps && q in ps && p.agent == q.agent
    ensures p == q
  {}

  /** When each agent proposes once, every proposal either acts or is told who outbid it, never both. */
  lemma ActsOrIsToldWhy(ps: seq<Bid>, p: Bid)
    requires OnePerAgent(ps) && p in ps
    ensures (p in Resolve(ps)) != (p in Lost(ps, Targets(ps)))
    ensures p !in Resolve(ps) ==>
              p.agent in Losers(ps) && p.target in Targets(ps)
              && Losers(ps)[p.agent] == Outbid(Winner(ps, p.target).agent, p.target)
  {
    WinnersAndLosersPartition(ps);
    MultiplicityOne(ps, p);
    assert multiset(Resolve(ps))[p] + multiset(Lost(ps, Targets(ps)))[p] == 1;
    if p !in Resolve(ps) { LostAreNamed(ps, Targets(ps), p); }
  }

  lemma {:induction false} MultiplicityOne(ps: seq<Bid>, p: Bid)
    requires OnePerAgent(ps) && p in ps
    ensures multiset(ps)[p] == 1
  {
    var k := |ps| - 1;
    assert ps == ps[..k] + [ps[k]];
    if p == ps[k] {
      assert p !in ps[..k];
    } else {
      MultiplicityOne(ps[..k], p);
    }
  }

  // --- Proposal order --------------------------------------------------------------------------

  /** `a` and `b` are the same bids in possibly different orders. */
  ghost predicate Reordered(a: seq<Bid>, b: seq<Bid>) { multiset(a) == multiset(b) }

  /** Two different bids share the top rank for their target. */
  ghost predicate TopTie(ps: seq<Bid>, p: Bid, q: Bid) {
    && p in ps && q in ps && p != q && p.target == q.target
    && AtLeast(q, p)
    && forall x :: x in ps && x.target == p.target ==> AtLeast(p, x)
  }

  ghost predicate NoTopTies(ps: seq<Bid>) { forall p, q :: !TopTie(ps, p, q) }

  lemma OnePerAgentHasNoTies(ps: seq<Bid>)
    requires OnePerAgent(ps)
    ensures NoTopTies(ps)
  {}

  lemma ReorderedMembers(a: seq<Bid>, b: seq<Bid>, x: Bid)
    requires Reordered(a, b)
    ensures x in a <==> x in b
  {
    assert x in a <==> x in multiset(a);
    assert x in b <==> x in multiset(b);
  }

  ghost predicate Top(ps: seq<Bid>, w: Bid) {
    w in ps && forall x :: x in ps && x.target == w.target ==> AtLeast(w, x)
  }

  lemma WinnersAreTops(ps: seq<Bid>, w: Bid)
    ensures w in Resolve(ps) ==> Top(ps, w)
    ensures NoTopTies(ps) && Top(ps, w) ==> w in Resolve(ps)
  {
    if w in Resolve(ps) {
      var i :| 0 <= i < |Resolve(ps)| && Resolve(ps)[i] == w;
      TargetOfWinner(ps, i);
      WinnerIsMaximal(ps, Targets(ps)[i]);
    }
    if NoTopTies(ps) && Top(ps, w) {
      TargetsMembers(ps, w);
      var i := WinnerOfTarget(ps, w.target);
      WinnerIsMaximal(ps, w.target);
      assert !TopTie(ps, w, Resolve(ps)[i]);
    }
  }

  /** The winners are the same whoever proposed first exactly when no target has a tie at the top
      (in particular when each agent proposes once). */
  lemma OrderIrrelevantIffNoTies(ps: seq<Bid>)
    ensures NoTopTies(ps) <==>
            forall a, b :: Reordered(a, ps) && Reordered(b, ps) ==>
              forall w :: w in Resolve(a) <==> w in Resolve(b)
  {
    if NoTopTies(ps) {
      forall a, b, w: Bid | Reordered(a, ps) && Reordered(b, ps) ensures w in Resolve(a) <==> w in Resolve(b) {
        SameTops(a, ps, w);
        SameTops(b, ps, w);
      }
    } else {
      var p, q :| TopTie(ps, p, q);
      var a, b := TiesAreDecidedByOrder(ps, p, q);
      assert p in Resolve(a) && p !in Resolve(b);
    }
  }

  lemma SameTops(a: seq<Bid>, ps: seq<Bid>, w: Bid)
    requires Reordered(a, ps) && NoTopTies(ps)
    ensures w in Resolve(a) <==> Top(ps, w)
  {
    forall x: Bid ensures x in a <==> x in ps { ReorderedMembers(a, ps, x); }
    forall p, q ensures !TopTie(a, p, q) { assert !TopTie(ps, p, q); }
    WinnersAreTops(a, w);
  }

  /** Each bid of a top tie wins when it is proposed first. */
  lemma TiesAreDecidedByOrder(ps: seq<Bid>, p: Bid, q: Bid) returns (a: seq<Bid>, b: seq<Bid>)
    requires TopTie(ps, p, q)
    ensures Reordered(a, ps) && Reordered(b, ps)
    ensures p in Resolve(a) && p !in Resolve(b)
  {
    a := ToFront(ps, p);
    b := ToFront(ps, q);
    forall x: Bid ensures (x in a <==> x in ps) && (x in b <==> x in ps) {
      ReorderedMembers(a, ps, x);
      ReorderedMembers(b, ps, x);
    }
    assert Top(a, p) && Top(b, q) by {
      AtLeastIsTotal();
    }
    var i := HeadTopWins(a);
    var j := HeadTopWins(b);
    forall k | 0 <= k < |Resolve(b)| ensures Resolve(b)[k] != p {
      TargetOfWinner(b, k);
      TargetOfWinner(b, j);
      TargetsDistinct(b);
    }
  }

  lemma ToFront(ps: seq<Bid>, p: Bid) returns (a: seq<Bid>)
    requires p in ps
    ensures Reordered(a, ps) && |a| > 0 && a[0] == p
  {
    var i :| 0 <= i < |ps| && ps[i] == p;
    a := [p] + (ps[..i] + ps[i + 1..]);
    assert ps == ps[..i] + [p] + ps[i + 1..];
  }

  lemma {:induction false} ForFromHead(ps: seq<Bid>)
    requires |ps| > 0
    ensures |For(ps, ps[0].target)| > 0 && For(ps, ps[0].target)[0] == ps[0]
  {
    if |ps| > 1 {
      assert ps[..|ps| - 1][0] == ps[0];
      ForFromHead(ps[..|ps| - 1]);
    } else {
      assert ps[..0] == [];
      assert For(ps, ps[0].target) == For(ps[..0], ps[0].target) + [ps[0]];
    }
  }

  lemma HeadTopWins(ps: seq<Bid>) returns (i: nat)
    requires |ps| > 0 && Top(ps, ps[0])
    ensures i < |Resolve(ps)| && Resolve(ps)[i] == ps[0]
  {
    var t := ps[0].target;
    var f := For(ps, t);
    ForFromHead(ps);
    AtLeastIsTotal();
    SortMembers(f[1..], AtLeast);
    var r := Sort(f[1..], AtLeast);
    if r != [] {
      assert f == [f[0]] + f[1..];
      ForMembers(ps, t, r[0]);
    }
    TargetsMembers(ps, ps[0]);
    i := WinnerOfTarget(ps, t);
  }

  /** Negotiation never lets more bids through than were made. */
  lemma WinnersAtMostProposals(ps: seq<Bid>)
    ensures |Resolve(ps)| <= |ps|
  {
    TargetsDistinct(ps);
    if Targets(ps) != [] { WinnersAt(ps, Targets(ps), 0); }
  }

  /** Bids on targets of their own all win. */
  lemma ApartAllWin(ps: seq<Bid>)
    requires forall i, j :: 0 <= i < j < |ps| ==> ps[i].target != ps[j].target
    ensures |Resolve(ps)| == |ps|
  {
    ApartTargets(ps);
    if Targets(ps) != [] { WinnersAt(ps, Targets(ps), 0); }
  }

  lemma {:induction false} ApartTargets(ps: seq<Bid>)
    requires forall i, j :: 0 <= i < j < |ps| ==> ps[i].target != ps[j].target
    ensures |Targets(ps)| == |ps|
  {
    if ps != [] {
      var front, last := ps[..|ps| - 1], ps[|ps| - 1];
      ApartTargets(front);
      forall t | t in Targets(front) ensures t != last.target {
        var i := TargetFrom(front, t);
      }
    }
  }

  /** A target comes from a bid. */
  lemma TargetFrom(ps: seq<Bid>, t: string) returns (i: nat)
    requires t in Targets(ps)
    ensures i < |ps| && ps[i].target == t
  {
    TargetsHaveBids(ps, t);
    var x := For(ps, t)[0];
    ForMembers(ps, t, x);
    i :| 0 <= i < |ps| && ps[i] == x;
  }
}
