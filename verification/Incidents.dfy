/** The simulated on-call human: each open fault is one incident, paged once and resolved once. */
module Incidents {
  import opened Tally
  import opened Options

  /** An escalation row; rows are kept in key order. Its latency column is `completed - requested`. */
  datatype Page = Page(requested: int, completed: Option<int>)

  datatype Fault = Fault(injected: int, detected: Option<int>, resolved: Option<int>, human: bool)

  /** The human's delay per fault ordinal (the seed is fixed), and the clock at each fault's turn. */
  datatype Config = Config(latency: nat -> int, now: nat -> int)

  datatype Desk = Desk(pages: seq<Page>, faults: seq<Fault>)

  // --- One incident -----------------------------------------------------------------------------

  predicate Open(p: Page, injected: int) { p.completed.None? && p.requested >= injected }

  /** The earliest open escalation filed since the fault: `ORDER BY requested_ts, id LIMIT 1`. */
  function First(pages: seq<Page>, injected: int): Option<nat> {
    if pages == [] then None
    else
      var k := |pages| - 1;
      var r := First(pages[..k], injected);
      if !Open(pages[k], injected) then r
      else if r.Some? && r.value < k && pages[r.value].requested <= pages[k].requested then r
      else Some(k)
  }

  ghost predicate IsFirst(pages: seq<Page>, injected: int, i: nat) {
    && i < |pages| && Open(pages[i], injected)
    && (forall j :: 0 <= j < |pages| && Open(pages[j], injected) ==> pages[i].requested <= pages[j].requested)
    && (forall j :: 0 <= j < i && Open(pages[j], injected) ==> pages[i].requested < pages[j].requested)
  }

  lemma {:induction false} FirstIs(pages: seq<Page>, injected: int)
    ensures var r := First(pages, injected);
            && (r.Some? ==> IsFirst(pages, injected, r.value))
            && (r.None? ==> forall j :: 0 <= j < |pages| ==> !Open(pages[j], injected))
  {
    if pages != [] {
      var k := |pages| - 1;
      FirstIs(pages[..k], injected);
      assert forall j :: 0 <= j < k ==> pages[..k][j] == pages[j];
    }
  }

  lemma FirstIsUnique(pages: seq<Page>, injected: int, i: nat)
    requires IsFirst(pages, injected, i)
    ensures First(pages, injected) == Some(i)
  {
    FirstIs(pages, injected);
    assert Open(pages[i], injected);
  }

  /** The escalation that pages the human, filed by the fixed monitor when there is none. */
  function Filed(pages: seq<Page>, f: Fault, now: int): seq<Page> {
    if First(pages, f.injected).Some? then pages
    else pages + [Page(if f.detected.Some? then f.detected.value else now, None)]
  }

  function PagedBy(pages: seq<Page>, f: Fault): nat {
    var r := First(pages, f.injected);
    if r.Some? then r.value else |pages|
  }

  lemma PagedByInRange(pages: seq<Page>, f: Fault, now: int)
    ensures PagedBy(pages, f) < |Filed(pages, f, now)|
    ensures Filed(pages, f, now)[PagedBy(pages, f)].completed.None?
  {
    FirstIs(pages, f.injected);
  }

  function CompletedAt(pages: seq<Page>, f: Fault, latency: int, now: int): int {
    var ps, i := Filed(pages, f, now), PagedBy(pages, f);
    if i < |ps| then ps[i].requested + latency else now
  }

  /** The paged row, and every other page of the same open incident, completed at `at`. */
  function Closed(p: Page, paged: bool, injected: int, at: int): Page {
    if paged || (p.completed.None? && injected <= p.requested <= at) then p.(completed := Some(at)) else p
  }

  function Handle(pages: seq<Page>, f: Fault, latency: int, now: int): seq<Page> {
    var ps, i, at := Filed(pages, f, now), PagedBy(pages, f), CompletedAt(pages, f, latency, now);
    seq(|ps|, j requires 0 <= j < |ps| => Closed(ps[j], j == i, f.injected, at))
  }

  // --- The pass over all faults -----------------------------------------------------------------

  function HandleFault(c: Config, d: Desk, i: nat): Desk
    requires i < |d.faults|
  {
    var f := d.faults[i];
    if f.resolved.Some? then d
    else Desk(Handle(d.pages, f, c.latency(i), c.now(i)),
              d.faults[i := f.(resolved := Some(CompletedAt(d.pages, f, c.latency(i), c.now(i))), human := true)])
  }

  /** The desk after the first `n` faults had their turn, in injection order. */
  function Pass(c: Config, d: Desk, n: nat): (r: Desk)
    requires n <= |d.faults|
    ensures |r.faults| == |d.faults|
  {
    if n == 0 then d else HandleFault(c, Pass(c, d, n - 1), n - 1)
  }

  /** Faults as fetched: in injection order, so a fault's index is its rank among all of the run's faults. */
  ghost predicate InInjectionOrder(faults: seq<Fault>) {
    forall i, j :: 0 <= i <= j < |faults| ==> faults[i].injected <= faults[j].injected
  }

  /** A later state of the page table: rows keep their request time, and completed rows stay as they are. */
  ghost predicate Later(p: seq<Page>, q: seq<Page>) {
    && |p| <= |q|
    && (forall j :: 0 <= j < |p| ==> q[j].requested == p[j].requested)
    && (forall j :: 0 <= j < |p| && p[j].completed.Some? ==> q[j] == p[j])
  }

  lemma HandleIs(pages: seq<Page>, f: Fault, latency: int, now: int)
    ensures var q, i, at := Handle(pages, f, latency, now), PagedBy(pages, f), CompletedAt(pages, f, latency, now);
            && Later(pages, q)
            && i < |q| && (i < |pages| ==> pages[i].completed.None?)
            && q[i].completed == Some(at) && at == q[i].requested + latency
  {
    PagedByInRange(pages, f, now);
    FirstIs(pages, f.injected);
  }

  /** The state each fault finds at its turn is the original one for faults not yet handled. */
  lemma {:induction false} PassKeepsRest(c: Config, d: Desk, n: nat)
    requires n <= |d.faults|
    ensures var r := Pass(c, d, n);
            && (forall i :: n <= i < |d.faults| ==> r.faults[i] == d.faults[i])
            && (forall i :: 0 <= i < |d.faults| && d.faults[i].resolved.Some? ==> r.faults[i] == d.faults[i])
            && (forall i :: 0 <= i < |d.faults| ==> r.faults[i].injected == d.faults[i].injected)
            && (forall i :: 0 <= i < |d.faults| ==> r.faults[i].detected == d.faults[i].detected)
  {
    if n > 0 { PassKeepsRest(c, d, n - 1); }
  }

  lemma {:induction false} PassLater(c: Config, d: Desk, m: nat, n: nat)
    requires m <= n <= |d.faults|
    ensures Later(Pass(c, d, m).pages, Pass(c, d, n).pages)
    ensures forall i :: 0 <= i < m ==> Pass(c, d, n).faults[i] == Pass(c, d, m).faults[i]
  {
    if m < n {
      PassLater(c, d, m, n - 1);
      var e := Pass(c, d, n - 1);
      if e.faults[n - 1].resolved.None? { HandleIs(e.pages, e.faults[n - 1], c.latency(n - 1), c.now(n - 1)); }
    }
  }

  /** The page row an unresolved fault is resolved through. */
  function PageOf(c: Config, d: Desk, i: nat): nat
    requires i < |d.faults|
  {
    PagedBy(Pass(c, d, i).pages, d.faults[i])
  }

  /** What the `i`-th turn of the pass does, and that the fault is as it was fetched. */
  lemma TurnOf(c: Config, d: Desk, i: nat)
    requires i < |d.faults|
    ensures var e := Pass(c, d, i);
            var f := e.faults[i];
            && f == d.faults[i]
            && (f.resolved.Some? ==> Pass(c, d, i + 1) == e)
            && (f.resolved.None? ==>
                  Pass(c, d, i + 1)
                  == Desk(Handle(e.pages, f, c.latency(i), c.now(i)),
                          e.faults[i := f.(resolved := Some(CompletedAt(e.pages, f, c.latency(i), c.now(i))), human := true)]))
  {
    PassKeepsRest(c, d, i);
    hide Handle, CompletedAt;
  }

  /** A fault resolved before keeps its resolution; any other is resolved at its page's time plus its own delay. */
  lemma ResolvedThroughItsPage(c: Config, d: Desk, i: nat)
    requires i < |d.faults|
    ensures var f, r := d.faults[i], Pass(c, d, |d.faults|);
            && (f.resolved.Some? ==> r.faults[i] == f)
            && (f.resolved.None? ==>
                  && r.faults[i].human && PageOf(c, d, i) < |r.pages|
                  && r.faults[i].resolved == r.pages[PageOf(c, d, i)].completed
                  && r.faults[i].resolved == Some(r.pages[PageOf(c, d, i)].requested + c.latency(i)))
  {
    PassKeepsRest(c, d, |d.faults|);
    hide Pass, Handle, CompletedAt, PagedBy;
    if d.faults[i].resolved.None? {
      TurnOf(c, d, i);
      HandleIs(Pass(c, d, i).pages, d.faults[i], c.latency(i), c.now(i));
      PassLater(c, d, i + 1, |d.faults|);
    }
  }

  lemma AllResolved(c: Config, d: Desk)
    ensures forall i :: 0 <= i < |d.faults| ==> Pass(c, d, |d.faults|).faults[i].resolved.Some?
    ensures forall i :: 0 <= i < |d.faults| ==> Pass(c, d, |d.faults|).faults[i].detected == d.faults[i].detected
  {
    PassKeepsRest(c, d, |d.faults|);
    hide Pass;
    forall i | 0 <= i < |d.faults| ensures Pass(c, d, |d.faults|).faults[i].resolved.Some? { ResolvedThroughItsPage(c, d, i); }
  }

  /** Two incidents never share a page row. */
  lemma PagesAreDistinct(c: Config, d: Desk, i: nat, j: nat)
    requires i < j < |d.faults| && d.faults[i].resolved.None? && d.faults[j].resolved.None?
    ensures PageOf(c, d, i) != PageOf(c, d, j)
  {
    PageTaken(c, d, i, j);
    FirstIs(Pass(c, d, j).pages, d.faults[j].injected);
  }

  /** From its turn on, an incident's page row is completed. */
  lemma PageTaken(c: Config, d: Desk, i: nat, j: nat)
    requires i < j <= |d.faults| && d.faults[i].resolved.None?
    ensures PageOf(c, d, i) < |Pass(c, d, j).pages| && Pass(c, d, j).pages[PageOf(c, d, i)].completed.Some?
  {
    hide Pass, Handle, PagedBy, CompletedAt;
    TurnOf(c, d, i);
    HandleIs(Pass(c, d, i).pages, d.faults[i], c.latency(i), c.now(i));
    PassLater(c, d, i + 1, j);
  }

  /** The page is the earliest escalation still open since the fault, or one filed at its detection. */
  lemma PageIsEarliest(c: Config, d: Desk, i: nat)
    requires i < |d.faults| && d.faults[i].resolved.None?
    ensures var f, ps := d.faults[i], Pass(c, d, i).pages;
            if exists j :: 0 <= j < |ps| && Open(ps[j], f.injected)
            then IsFirst(ps, f.injected, PageOf(c, d, i))
            else PageOf(c, d, i) == |ps|
                 && Pass(c, d, i + 1).pages[|ps|..] == [Page(if f.detected.Some? then f.detected.value else c.now(i),
                                                             Pass(c, d, i + 1).faults[i].resolved)]
  {
    PassKeepsRest(c, d, i);
    FirstIs(Pass(c, d, i).pages, d.faults[i].injected);
  }

  // --- Which pages close ------------------------------------------------------------------------

  /** What a fault's turn does to one row: its own page and the pages requested from the fault's injection to its
      resolution complete with it, completed rows and all others stay. */
  lemma TurnCloses(c: Config, d: Desk, j: nat, k: nat)
    requires j < |d.faults| && d.faults[j].resolved.None? && k < |Pass(c, d, j + 1).pages|
    ensures var e, g := Pass(c, d, j), Pass(c, d, j + 1);
            && g.faults[j].resolved.Some? && |e.pages| <= |g.pages|
            && (k < |e.pages| ==> g.pages[k].requested == e.pages[k].requested)
            && (|e.pages| <= k ==> k == PageOf(c, d, j))
            && (if k < |e.pages| && e.pages[k].completed.Some? then g.pages[k] == e.pages[k]
                else var at := g.faults[j].resolved.value;
                     g.pages[k].completed
                     == if k == PageOf(c, d, j) || d.faults[j].injected <= g.pages[k].requested <= at then Some(at) else None)
  {
    TurnOf(c, d, j);
    var e, f := Pass(c, d, j), d.faults[j];
    hide Pass, CompletedAt;
    PagedByInRange(e.pages, f, c.now(j));
    HandleIs(e.pages, f, c.latency(j), c.now(j));
    FirstIs(e.pages, f.injected);
  }

  /** Row `k` was completed by an incident among the first `n`, at its resolution. */
  ghost predicate ClosedBy(c: Config, d: Desk, n: nat, k: nat, j: nat)
    requires n <= |d.faults|
  {
    var r := Pass(c, d, n);
    && j < n && d.faults[j].resolved.None? && r.faults[j].resolved.Some? && k < |r.pages|
    && (k == PageOf(c, d, j) || d.faults[j].injected <= r.pages[k].requested <= r.faults[j].resolved.value)
  }

  /** After `n` turns a row is completed exactly when it was before or such an incident closed it, at its resolution. */
  ghost predicate ClosedRight(c: Config, d: Desk, n: nat, k: nat)
    requires n <= |d.faults| && k < |Pass(c, d, n).pages|
  {
    var r := Pass(c, d, n);
    && (k < |d.pages| ==> r.pages[k].requested == d.pages[k].requested)
    && (k >= |d.pages| ==> r.pages[k].completed.Some?)
    && (if k < |d.pages| && d.pages[k].completed.Some? then r.pages[k] == d.pages[k]
        else && (r.pages[k].completed.Some? <==> exists j: nat :: ClosedBy(c, d, n, k, j))
             && (r.pages[k].completed.Some? ==>
                   exists j: nat :: ClosedBy(c, d, n, k, j) && r.pages[k].completed == r.faults[j].resolved))
  }

  lemma ClosedByStays(c: Config, d: Desk, n: nat, k: nat, j: nat)
    requires n < |d.faults| && k < |Pass(c, d, n).pages|
    ensures k < |Pass(c, d, n + 1).pages| && Pass(c, d, n + 1).pages[k].requested == Pass(c, d, n).pages[k].requested
    ensures j < n ==> (ClosedBy(c, d, n + 1, k, j) <==> ClosedBy(c, d, n, k, j))
    ensures j < n ==> Pass(c, d, n + 1).faults[j] == Pass(c, d, n).faults[j]
  {
    PassLater(c, d, n, n + 1);
    hide Pass, PageOf;
  }

  lemma {:induction false} PagesCloseRight(c: Config, d: Desk, n: nat, k: nat)
    requires n <= |d.faults| && k < |Pass(c, d, n).pages|
    ensures ClosedRight(c, d, n, k)
  {
    if n > 0 {
      var m := n - 1;
      PassLater(c, d, m, n);
      if k < |Pass(c, d, m).pages| { PagesCloseRight(c, d, m, k); }
      if d.faults[m].resolved.Some? {
        TurnOf(c, d, m);
        hide Pass, PageOf, ClosedRight;
        forall j: nat ensures ClosedBy(c, d, n, k, j) <==> ClosedBy(c, d, m, k, j) { ClosedByStays(c, d, m, k, j); }
        SkipKeepsRight(c, d, m, k);
      } else {
        hide Pass, PageOf, ClosedRight;
        TurnKeepsRight(c, d, m, k);
      }
    }
  }

  lemma SkipKeepsRight(c: Config, d: Desk, m: nat, k: nat)
    requires m < |d.faults| && k < |Pass(c, d, m).pages| && Pass(c, d, m + 1) == Pass(c, d, m) && ClosedRight(c, d, m, k)
    requires forall j: nat :: ClosedBy(c, d, m + 1, k, j) <==> ClosedBy(c, d, m, k, j)
    ensures ClosedRight(c, d, m + 1, k)
  {
    hide Pass, PageOf;
    var r := Pass(c, d, m);
    if r.pages[k].completed.Some? && (k >= |d.pages| || d.pages[k].completed.None?) {
      var j: nat :| ClosedBy(c, d, m, k, j) && r.pages[k].completed == r.faults[j].resolved;
      assert ClosedBy(c, d, m + 1, k, j);
    } else if r.pages[k].completed.None? {
      var n := m + 1;
      forall j: nat ensures !ClosedBy(c, d, n, k, j) { assert !ClosedBy(c, d, m, k, j); }
    } else {
      assert k < |d.pages| && d.pages[k].completed.Some?;
    }
  }

  lemma TurnKeepsRight(c: Config, d: Desk, m: nat, k: nat)
    requires m < |d.faults| && d.faults[m].resolved.None? && k < |Pass(c, d, m + 1).pages|
    requires k < |Pass(c, d, m).pages| ==> ClosedRight(c, d, m, k)
    ensures ClosedRight(c, d, m + 1, k)
  {
    TurnCloses(c, d, m, k);
    PassLater(c, d, 0, m);
    assert Pass(c, d, 0) == d;
    hide Pass, PageOf, Later;
    var e, r := Pass(c, d, m), Pass(c, d, m + 1);
    if k < |e.pages| && e.pages[k].completed.Some? {
      StaysClosed(c, d, m, k);
    } else if r.pages[k].completed.Some? {
      assert ClosedBy(c, d, m + 1, k, m) && r.pages[k].completed == r.faults[m].resolved;
    } else {
      var n := m + 1;
      forall j: nat ensures !ClosedBy(c, d, n, k, j) {
        if j < m { ClosedByStays(c, d, m, k, j); }
      }
    }
  }

  lemma StaysClosed(c: Config, d: Desk, m: nat, k: nat)
    requires m < |d.faults| && k < |Pass(c, d, m).pages| && ClosedRight(c, d, m, k)
    requires k < |Pass(c, d, m + 1).pages| && Pass(c, d, m).pages[k].completed.Some?
    requires Pass(c, d, m + 1).pages[k] == Pass(c, d, m).pages[k]
    ensures ClosedRight(c, d, m + 1, k)
  {
    hide Pass, PageOf;
    if k >= |d.pages| || d.pages[k].completed.None? {
      var j: nat :| ClosedBy(c, d, m, k, j) && Pass(c, d, m).pages[k].completed == Pass(c, d, m).faults[j].resolved;
      ClosedByStays(c, d, m, k, j);
      assert ClosedBy(c, d, m + 1, k, j);
    }
  }

  /** Over the whole pass: a row open before is completed exactly when it is some incident's own page or was requested
      between that incident's injection and resolution, and then at such an incident's resolution. No other row is. */
  lemma PagesCloseIff(c: Config, d: Desk, k: nat)
    requires k < |Pass(c, d, |d.faults|).pages|
    ensures ClosedRight(c, d, |d.faults|, k)
  {
    PagesCloseRight(c, d, |d.faults|, k);
  }

  /** The earlier incidents are over before `injected`. */
  ghost predicate OverBefore(c: Config, d: Desk, n: nat, injected: int)
    requires n <= |d.faults|
  {
    forall j :: 0 <= j < n && d.faults[j].resolved.None? ==>
      c.latency(j) >= 0 && Pass(c, d, n).faults[j].resolved.Some? && Pass(c, d, n).faults[j].resolved.value < injected
  }

  /** Then they leave every page requested since alone, and leave none of their own open. */
  lemma {:induction false} OthersLeaveOpen(c: Config, d: Desk, n: nat, injected: int, k: nat)
    requires n <= |d.faults| && OverBefore(c, d, n, injected) && k < |Pass(c, d, n).pages|
    ensures k >= |d.pages| ==> Pass(c, d, n).pages[k].completed.Some?
    ensures k < |d.pages| ==> Pass(c, d, n).pages[k].requested == d.pages[k].requested
    ensures k < |d.pages| && d.pages[k].requested >= injected ==> Pass(c, d, n).pages[k] == d.pages[k]
  {
    PagesCloseRight(c, d, n, k);
    hide Pass;
    if k < |d.pages| && d.pages[k].requested >= injected && d.pages[k].completed.None? && Pass(c, d, n).pages[k].completed.Some? {
      var j: nat :| ClosedBy(c, d, n, k, j);
      OwnPageTime(c, d, n, j);
    }
  }

  lemma OthersLeaveAllOpen(c: Config, d: Desk, n: nat, injected: int)
    requires n <= |d.faults| && OverBefore(c, d, n, injected)
    ensures var ps := Pass(c, d, n).pages;
            && |d.pages| <= |ps|
            && forall k :: 0 <= k < |ps| ==>
                 && (Open(ps[k], injected) <==> k < |d.pages| && Open(d.pages[k], injected))
                 && (k < |d.pages| ==> ps[k].requested == d.pages[k].requested)
  {
    PassLater(c, d, 0, n);
    assert Pass(c, d, 0) == d;
    hide Pass, OverBefore;
    forall k | 0 <= k < |Pass(c, d, n).pages|
      ensures Open(Pass(c, d, n).pages[k], injected) <==> k < |d.pages| && Open(d.pages[k], injected)
      ensures k < |d.pages| ==> Pass(c, d, n).pages[k].requested == d.pages[k].requested
    {
      OthersLeaveOpen(c, d, n, injected, k);
    }
  }

  /** An incident resolves at its own page's request time plus its delay. */
  lemma OwnPageTime(c: Config, d: Desk, n: nat, j: nat)
    requires j < n <= |d.faults| && d.faults[j].resolved.None?
    ensures var r := Pass(c, d, n);
            PageOf(c, d, j) < |r.pages| && r.faults[j].resolved == Some(r.pages[PageOf(c, d, j)].requested + c.latency(j))
  {
    hide Pass, Handle, CompletedAt, PagedBy;
    TurnOf(c, d, j);
    HandleIs(Pass(c, d, j).pages, d.faults[j], c.latency(j), c.now(j));
    PassLater(c, d, j + 1, n);
  }

  /** When every earlier incident is over before a fault is injected, the fault's page is told by the original table:
      the earliest row still open and requested since, the lower key on equal times, or else one filed at its
      detection; and the fault resolves at that time plus its own delay. */
  lemma UndisturbedIncident(c: Config, d: Desk, i: nat)
    requires i < |d.faults| && d.faults[i].resolved.None? && OverBefore(c, d, i, d.faults[i].injected)
    ensures var f, p, t := d.faults[i], PageOf(c, d, i), Pass(c, d, |d.faults|).faults[i].resolved;
            if exists k :: 0 <= k < |d.pages| && d.pages[k].completed.None? && d.pages[k].requested >= f.injected then
              && p < |d.pages| && d.pages[p].completed.None? && d.pages[p].requested >= f.injected
              && (forall k :: 0 <= k < |d.pages| && d.pages[k].completed.None? && d.pages[k].requested >= f.injected ==>
                    d.pages[p].requested < d.pages[k].requested || (d.pages[p].requested == d.pages[k].requested && p <= k))
              && t == Some(d.pages[p].requested + c.latency(i))
            else p >= |d.pages| && t == Some((if f.detected.Some? then f.detected.value else c.now(i)) + c.latency(i))
  {
    var f, ps, p := d.faults[i], Pass(c, d, i).pages, PageOf(c, d, i);
    OthersLeaveAllOpen(c, d, i, f.injected);
    FirstIs(ps, f.injected);
    ResolvedThroughItsPage(c, d, i);
    PageTimeStays(c, d, i);
    hide Pass, First, OverBefore;
    if k :| 0 <= k < |d.pages| && d.pages[k].completed.None? && d.pages[k].requested >= f.injected {
      assert Open(d.pages[k], f.injected) && Open(ps[k], f.injected);
      assert First(ps, f.injected) == Some(p) && IsFirst(ps, f.injected, p);
      forall m | 0 <= m < |d.pages| && d.pages[m].completed.None? && d.pages[m].requested >= f.injected
        ensures d.pages[p].requested < d.pages[m].requested || (d.pages[p].requested == d.pages[m].requested && p <= m)
      {
        assert Open(d.pages[m], f.injected) && Open(ps[m], f.injected);
      }
    }
  }

  /** The request time of a fault's page, once it was paged, is the one it was paged with. */
  lemma PageTimeStays(c: Config, d: Desk, i: nat)
    requires i < |d.faults| && d.faults[i].resolved.None?
    ensures var r, p, ps := Pass(c, d, |d.faults|), PageOf(c, d, i), Pass(c, d, i).pages;
            && p < |r.pages|
            && r.pages[p].requested == if p < |ps| then ps[p].requested
                                       else if d.faults[i].detected.Some? then d.faults[i].detected.value else c.now(i)
  {
    TurnOf(c, d, i);
    PagedByInRange(Pass(c, d, i).pages, d.faults[i], c.now(i));
    FirstIs(Pass(c, d, i).pages, d.faults[i].injected);
    PassLater(c, d, i + 1, |d.faults|);
    hide Pass, CompletedAt;
  }

  // --- Escalating again changes nothing ---------------------------------------------------------

  /** The same page table with one more row, at position `k`. */
  ghost predicate OneMore(p: seq<Page>, q: seq<Page>, k: nat, requested: int) {
    && k <= |p| && |q| == |p| + 1 && q[k].requested == requested
    && (forall j :: 0 <= j < k ==> q[j] == p[j])
    && (forall j :: k <= j < |p| ==> q[j + 1] == p[j])
  }

  function Shift(j: nat, k: nat): nat { if j < k then j else j + 1 }

  /** The extra row is passed over whenever it is closed or comes after an open one. */
  lemma FirstShifts(p: seq<Page>, q: seq<Page>, k: nat, requested: int, injected: int)
    requires OneMore(p, q, k, requested)
    requires Open(q[k], injected) ==> exists e :: 0 <= e < k && Open(p[e], injected) && p[e].requested <= requested
    ensures var r := First(p, injected);
            First(q, injected) == if r.Some? then Some(Shift(r.value, k)) else None
  {
    FirstIs(p, injected);
    FirstIs(q, injected);
    var r := First(p, injected);
    if r.Some? {
      FirstIsUnique(q, injected, Shift(r.value, k)) by { ShiftIsFirst(p, q, k, requested, injected, r.value); }
    } else {
      forall j | 0 <= j < |q| ensures !Open(q[j], injected) {
        if j < k { assert q[j] == p[j]; }
        if j > k { assert q[j] == p[j - 1]; }
      }
    }
  }

  lemma ShiftIsFirst(p: seq<Page>, q: seq<Page>, k: nat, requested: int, injected: int, i: nat)
    requires OneMore(p, q, k, requested) && IsFirst(p, injected, i)
    requires Open(q[k], injected) ==> exists e :: 0 <= e < k && Open(p[e], injected) && p[e].requested <= requested
    ensures IsFirst(q, injected, Shift(i, k))
  {
    var s := Shift(i, k);
    forall j | 0 <= j < |q| && Open(q[j], injected)
      ensures q[s].requested <= q[j].requested && (j < s ==> q[s].requested < q[j].requested)
    {
      if j < k { assert Open(p[j], injected); }
      if j > k { assert Open(p[j - 1], injected); }
    }
  }

  /** One incident, with and without the extra row: same completion, same rows otherwise. */
  lemma HandleShifts(p: seq<Page>, q: seq<Page>, k: nat, requested: int, f: Fault, latency: int, now: int)
    requires OneMore(p, q, k, requested)
    requires Open(q[k], f.injected) ==> exists e :: 0 <= e < k && Open(p[e], f.injected) && p[e].requested <= requested
    ensures CompletedAt(q, f, latency, now) == CompletedAt(p, f, latency, now)
    ensures PagedBy(q, f) == Shift(PagedBy(p, f), k)
    ensures OneMore(Handle(p, f, latency, now), Handle(q, f, latency, now), k, requested)
  {
    FirstShifts(p, q, k, requested, f.injected);
    FirstIs(p, f.injected);
    FiledShifts(p, q, k, requested, f, now);
    hide Filed, First, Open;
    PagedByInRange(p, f, now);
  }

  lemma FiledShifts(p: seq<Page>, q: seq<Page>, k: nat, requested: int, f: Fault, now: int)
    requires OneMore(p, q, k, requested)
    requires First(q, f.injected) == var r := First(p, f.injected); if r.Some? then Some(Shift(r.value, k)) else None
    ensures OneMore(Filed(p, f, now), Filed(q, f, now), k, requested)
    ensures PagedBy(q, f) == Shift(PagedBy(p, f), k)
  {}

  /** A fault's page is still open at every earlier fault's turn. */
  lemma PageOpenBefore(c: Config, d: Desk, j: nat, i: nat)
    requires j <= i < |d.faults| && d.faults[i].resolved.None? && PageOf(c, d, i) < |d.pages|
    ensures var ps, e := Pass(c, d, j).pages, PageOf(c, d, i);
            e < |ps| && Open(ps[e], d.faults[i].injected) && ps[e].requested == d.pages[e].requested
  {
    PassLater(c, d, 0, j);
    PassLater(c, d, 0, i);
    PassLater(c, d, j, i);
    FirstIs(Pass(c, d, i).pages, d.faults[i].injected);
    assert First(Pass(c, d, i).pages, d.faults[i].injected).Some? by {
      assert |Pass(c, d, i).pages| >= |d.pages|;
    }
  }

  /** What holds of the two passes after `n` faults. */
  ghost predicate Mirrors(c: Config, d: Desk, d2: Desk, k: nat, requested: int, i: nat, n: nat)
    requires n <= |d.faults| && d2.faults == d.faults && i < |d.faults|
  {
    && Pass(c, d2, n).faults == Pass(c, d, n).faults
    && OneMore(Pass(c, d, n).pages, Pass(c, d2, n).pages, k, requested)
    && (n > i ==> Pass(c, d2, n).pages[k].completed.Some?)
  }

  lemma MirrorStep(c: Config, d: Desk, d2: Desk, k: nat, requested: int, i: nat, n: nat)
    requires InInjectionOrder(d.faults) && d2.faults == d.faults && n < |d.faults|
    requires i < |d.faults| && d.faults[i].resolved.None? && PageOf(c, d, i) < k && k <= |d.pages|
    requires d.pages[PageOf(c, d, i)].requested <= requested <= CompletedAt(Pass(c, d, i).pages, d.faults[i], c.latency(i), c.now(i))
    requires Mirrors(c, d, d2, k, requested, i, n)
    ensures Mirrors(c, d, d2, k, requested, i, n + 1)
    ensures PageOf(c, d2, n) == Shift(PageOf(c, d, n), k)
  {
    PassKeepsRest(c, d, n);
    var p, q, f := Pass(c, d, n).pages, Pass(c, d2, n).pages, d.faults[n];
    if n <= i { PageOpenBefore(c, d, n, i); }
    if n <= i {
      var e := PageOf(c, d, i);
      assert Open(p[e], f.injected) && p[e].requested <= requested;
    }
    HandleShifts(p, q, k, requested, f, c.latency(n), c.now(n));
    if n == i {
      ExtraCloses(p, q, k, requested, f, c.latency(n), c.now(n));
    } else if n > i {
      HandleIs(q, f, c.latency(n), c.now(n));
    }
  }

  /** The paged incident's completion closes the extra row with it. */
  lemma ExtraCloses(p: seq<Page>, q: seq<Page>, k: nat, requested: int, f: Fault, latency: int, now: int)
    requires OneMore(p, q, k, requested) && |Filed(q, f, now)| > k && Filed(q, f, now)[k] == q[k]
    requires f.injected <= requested <= CompletedAt(q, f, latency, now)
    ensures Handle(q, f, latency, now)[k].completed.Some?
  {}

  lemma MirrorStart(c: Config, d: Desk, d2: Desk, k: nat, requested: int, i: nat)
    requires d2.faults == d.faults && i < |d.faults| && OneMore(d.pages, d2.pages, k, requested)
    ensures Mirrors(c, d, d2, k, requested, i, 0)
  {}

  lemma {:induction false} MirrorsThroughout(c: Config, d: Desk, d2: Desk, k: nat, requested: int, i: nat, n: nat)
    requires InInjectionOrder(d.faults) && d2.faults == d.faults && n <= |d.faults|
    requires i < |d.faults| && d.faults[i].resolved.None? && PageOf(c, d, i) < k && k <= |d.pages|
    requires d.pages[PageOf(c, d, i)].requested <= requested <= CompletedAt(Pass(c, d, i).pages, d.faults[i], c.latency(i), c.now(i))
    requires OneMore(d.pages, d2.pages, k, requested)
    ensures Mirrors(c, d, d2, k, requested, i, n)
  {
    hide Mirrors, CompletedAt, InInjectionOrder;
    if n == 0 {
      MirrorStart(c, d, d2, k, requested, i);
    } else {
      MirrorsThroughout(c, d, d2, k, requested, i, n - 1);
      MirrorStep(c, d, d2, k, requested, i, n - 1);
    }
  }

  /** Re-escalating an incident between its page and its completion moves no fault's resolution. */
  lemma ReEscalationInvariant(c: Config, d: Desk, i: nat, k: nat, extra: Page)
    requires InInjectionOrder(d.faults) && i < |d.faults| && d.faults[i].resolved.None?
    requires PageOf(c, d, i) < k <= |d.pages|
    requires d.pages[PageOf(c, d, i)].requested <= extra.requested <= d.pages[PageOf(c, d, i)].requested + c.latency(i)
    ensures var d2 := d.(pages := d.pages[..k] + [extra] + d.pages[k..]);
            && Pass(c, d2, |d.faults|).faults == Pass(c, d, |d.faults|).faults
            && PageOf(c, d2, i) == PageOf(c, d, i)
  {
    hide Pass, CompletedAt, InInjectionOrder, Mirrors;
    var d2 := d.(pages := d.pages[..k] + [extra] + d.pages[k..]);
    CompletionOf(c, d, i);
    assert OneMore(d.pages, d2.pages, k, extra.requested);
    MirrorsThroughout(c, d, d2, k, extra.requested, i, |d.faults|);
    MirrorsThroughout(c, d, d2, k, extra.requested, i, i);
    MirrorStep(c, d, d2, k, extra.requested, i, i);
    MirrorsMean(c, d, d2, k, extra.requested, i, |d.faults|);
  }

  lemma MirrorsMean(c: Config, d: Desk, d2: Desk, k: nat, requested: int, i: nat, n: nat)
    requires n <= |d.faults| && d2.faults == d.faults && i < |d.faults| && Mirrors(c, d, d2, k, requested, i, n)
    ensures Pass(c, d2, n).faults == Pass(c, d, n).faults
  {}

  /** An incident paged by an existing escalation completes at that escalation's time plus its own delay. */
  lemma CompletionOf(c: Config, d: Desk, i: nat)
    requires i < |d.faults| && d.faults[i].resolved.None? && PageOf(c, d, i) < |d.pages|
    ensures CompletedAt(Pass(c, d, i).pages, d.faults[i], c.latency(i), c.now(i))
            == d.pages[PageOf(c, d, i)].requested + c.latency(i)
  {
    PageOpenBefore(c, d, i, i);
    FirstIs(Pass(c, d, i).pages, d.faults[i].injected);
  }

  /** An extra escalation and the place it takes in key order. */
  datatype Extra = Extra(at: nat, page: Page)

  function Insert(pages: seq<Page>, x: Extra): seq<Page> {
    if x.at <= |pages| then pages[..x.at] + [x.page] + pages[x.at..] else pages
  }

  /** The page table with extra escalations put in one by one, each anywhere. */
  function InsertAll(pages: seq<Page>, extra: seq<Extra>): seq<Page> {
    if extra == [] then pages else Insert(InsertAll(pages, extra[..|extra| - 1]), extra[|extra| - 1])
  }

  /** However often the incident is escalated again before it completes, and however those escalations
      mix with others in key order after its page. */
  lemma {:induction false} AnyReEscalationsInvariant(c: Config, d: Desk, i: nat, extra: seq<Extra>)
    requires InInjectionOrder(d.faults) && i < |d.faults| && d.faults[i].resolved.None?
    requires PageOf(c, d, i) < |d.pages|
    requires forall x :: x in extra ==>
               && x.at > PageOf(c, d, i)
               && d.pages[PageOf(c, d, i)].requested <= x.page.requested <= d.pages[PageOf(c, d, i)].requested + c.latency(i)
    ensures var d2 := d.(pages := InsertAll(d.pages, extra));
            && Pass(c, d2, |d.faults|).faults == Pass(c, d, |d.faults|).faults
            && PageOf(c, d2, i) == PageOf(c, d, i)
            && PageOf(c, d, i) < |d2.pages| && d2.pages[PageOf(c, d, i)] == d.pages[PageOf(c, d, i)]
    decreases |extra|
  {
    hide Pass, PageOf, InInjectionOrder;
    if extra != [] {
      var front, x := extra[..|extra| - 1], extra[|extra| - 1];
      assert forall y :: y in front ==> y in extra;
      AnyReEscalationsInvariant(c, d, i, front);
      var e := d.(pages := InsertAll(d.pages, front));
      assert x in extra;
      if x.at <= |e.pages| { ReEscalationInvariant(c, e, i, x.at, x.page); }
    }
  }

  // --- The imperative pass ----------------------------------------------------------------------

  /** The fixed monitor stamps every unresolved fault that nothing detected. */
  function Stamp(f: Fault): Fault {
    if f.resolved.None? && f.detected.None? then f.(detected := Some(f.injected)) else f
  }

  function StampAll(faults: seq<Fault>): seq<Fault> { seq(|faults|, i requires 0 <= i < |faults| => Stamp(faults[i])) }

  class OnCall {
    var pages: seq<Page>
    var faults: seq<Fault>

    ghost function State(): Desk reads this { Desk(pages, faults) }

    constructor (pages: seq<Page>, faults: seq<Fault>)
      ensures State() == Desk(pages, faults)
    {
      this.pages, this.faults := pages, faults;
    }

    method FindFirst(injected: int) returns (first: Option<nat>)
      ensures first == First(pages, injected)
    {
      first := None;
      for j := 0 to |pages|
        invariant first == First(pages[..j], injected) && (first.Some? ==> first.value < j)
      {
        assert pages[..j + 1][..j] == pages[..j];
        if Open(pages[j], injected) && (first.None? || pages[j].requested < pages[first.value].requested) {
          first := Some(j);
        }
      }
      assert pages[..|pages|] == pages;
    }

    /** Page the human for one fault and close what the page settles. */
    method PageHuman(f: Fault, latency: int, now: int) returns (completed: int)
      modifies this`pages
      ensures pages == Handle(old(pages), f, latency, now)
      ensures completed == CompletedAt(old(pages), f, latency, now)
      ensures forall m :: 0 <= m < |old(pages)| ==>
                m < |pages| && pages[m].requested == old(pages)[m].requested
                && if old(pages)[m].completed.Some? then pages[m] == old(pages)[m]
                   else pages[m].completed == if m == PagedBy(old(pages), f) || f.injected <= pages[m].requested <= completed
                                              then Some(completed) else None
    {
      var first := FindFirst(f.injected);
      FirstIs(pages, f.injected);
      var id := |pages|;
      if first.Some? {
        id := first.value;
      } else {
        pages := pages + [Page(if f.detected.Some? then f.detected.value else now, None)];
      }
      completed := pages[id].requested + latency;
      ghost var filed := pages;
      pages := pages[id := pages[id].(completed := Some(completed))];
      for j := 0 to |pages|
        invariant |pages| == |filed|
        invariant forall m :: 0 <= m < j ==> pages[m] == Closed(filed[m], m == id, f.injected, completed)
        invariant forall m :: j <= m < |pages| ==> pages[m] == if m == id then filed[m].(completed := Some(completed)) else filed[m]
      {
        if pages[j].completed.None? && f.injected <= pages[j].requested <= completed {
          pages := pages[j := pages[j].(completed := Some(completed))];
        }
      }
    }

    /** The on-call pass: nothing is open when it ends. */
    method ResolveViaHuman(c: Config, fixedDetection: bool) returns (resolved: nat)
      modifies this
      ensures var d := Desk(old(pages), if fixedDetection then StampAll(old(faults)) else old(faults));
              && State() == Pass(c, d, |old(faults)|)
              && resolved == Count(old(faults), (f: Fault) => f.resolved.None?)
      ensures |faults| == |old(faults)| && forall i :: 0 <= i < |faults| ==> faults[i].resolved.Some?
      ensures forall i :: 0 <= i < |faults| ==>
                faults[i].detected == if fixedDetection && old(faults)[i].resolved.None? && old(faults)[i].detected.None?
                                      then Some(old(faults)[i].injected) else old(faults)[i].detected
    {
      if fixedDetection { faults := StampAll(faults); }
      ghost var d := State();
      resolved := 0;
      for i := 0 to |faults|
        invariant |faults| == |d.faults| && State() == Pass(c, d, i)
        invariant resolved == Count(old(faults)[..i], (f: Fault) => f.resolved.None?)
      {
        TurnOf(c, d, i);
        hide Pass, Handle, CompletedAt;
        assert old(faults)[..i + 1][..i] == old(faults)[..i];
        if faults[i].resolved.None? {
          var completed := PageHuman(faults[i], c.latency(i), c.now(i));
          faults := faults[i := faults[i].(resolved := Some(completed), human := true)];
          resolved := resolved + 1;
        }
      }
      assert old(faults)[..|faults|] == old(faults);
      AllResolved(c, d);
    }
  }
}
