/** The fixed-window request limiter, and what it admits in any sliding window. */
module RateLimit {
  import opened Tally
  import opened Options

  /** A key's window: when it opened and how many requests it has counted. */
  datatype Window = Window(start: int, count: nat)

  /** An admitted request: its time, and the start of the window that admitted it. */
  datatype Admitted = Admitted(at: int, start: int)

  /** One key's history: its current window and every request admitted so far. */
  datatype History = History(window: Option<Window>, admitted: seq<Admitted>)

  datatype Config = Config(limit: int, width: int)

  /** The window a request at `now` is counted in, itself included. */
  function Counted(c: Config, w: Option<Window>, now: int): Window {
    var window := if w.Some? then w.value else Window(now, 0);
    if now - window.start >= c.width then Window(now, 1) else Window(window.start, window.count + 1)
  }

  function Serve(c: Config, h: History, now: int): History {
    var w := Counted(c, h.window, now);
    History(Some(w), if w.count > c.limit then h.admitted else h.admitted + [Admitted(now, w.start)])
  }

  /** One key's history after requests at these times. */
  function Run(c: Config, times: seq<int>): History {
    if times == [] then History(None, []) else Serve(c, Run(c, times[..|times| - 1]), times[|times| - 1])
  }

  ghost predicate Ordered(times: seq<int>) { forall i, j :: 0 <= i <= j < |times| ==> times[i] <= times[j] }

  // --- Bounds -----------------------------------------------------------------------------------

  function InWindow(h: History, s: int): nat { Count(h.admitted, (x: Admitted) => x.start == s) }

  function Between(h: History, a: int, b: int): nat { Count(h.admitted, (x: Admitted) => a <= x.at < b) }

  function Least(a: int, b: int): int { if a < b then a else b }

  /** Admitted requests sit in their windows, and distinct windows start at least a width apart. */
  ghost predicate Spaced(c: Config, h: History) {
    && (h.window.None? ==> h.admitted == [])
    && (forall x :: x in h.admitted ==> x.start <= x.at < x.start + c.width)
    && (forall x :: x in h.admitted ==> x.start == h.window.value.start || x.start + c.width <= h.window.value.start)
    && (forall x, y :: x in h.admitted && y in h.admitted && x.start < y.start ==> x.start + c.width <= y.start)
  }

  /** A window admits its first `limit` requests, and its opening request is the one at its start. */
  ghost predicate Counting(c: Config, h: History) {
    && (h.window.Some? ==> h.window.value.count >= 1
                           && InWindow(h, h.window.value.start) == Least(h.window.value.count, c.limit))
    && (forall s :: InWindow(h, s) <= c.limit)
    && (forall x :: x in h.admitted ==> Admitted(x.start, x.start) in h.admitted)
  }

  lemma ServeSpaced(c: Config, h: History, now: int)
    requires c.limit > 0 && c.width > 0 && Spaced(c, h) && (h.window.Some? ==> h.window.value.start <= now)
    ensures Spaced(c, Serve(c, h, now))
  {}

  lemma ServeCounting(c: Config, h: History, now: int)
    requires c.limit > 0 && c.width > 0 && Spaced(c, h) && Counting(c, h)
    requires h.window.Some? ==> h.window.value.start <= now
    ensures Counting(c, Serve(c, h, now))
  {
    var w := Counted(c, h.window, now);
    var n := Serve(c, h, now);
    if h.window.None? || w.start != h.window.value.start {
      CountNone(h.admitted, (x: Admitted) => x.start == w.start);
    }
    assert w.count <= c.limit ==> InWindow(h, w.start) == w.count - 1;
    if w.count <= c.limit {
      forall s ensures InWindow(n, s) == InWindow(h, s) + if s == w.start then 1 else 0 {
        CountAppend(h.admitted, Admitted(now, w.start), (x: Admitted) => x.start == s);
      }
      forall s ensures InWindow(n, s) <= c.limit { assert InWindow(h, s) <= c.limit; }
      OpenerAdmitted(c, h, w);
    } else {
      forall s ensures InWindow(n, s) <= c.limit { assert InWindow(h, s) <= c.limit; }
    }
  }

  /** A window that counted a request before has admitted its opener. */
  lemma OpenerAdmitted(c: Config, h: History, w: Window)
    requires Counting(c, h) && c.limit > 0
    ensures h.window.Some? && w.start == h.window.value.start ==> Admitted(w.start, w.start) in h.admitted
  {
    if h.window.Some? && w.start == h.window.value.start && forall x :: x in h.admitted ==> x.start != w.start {
      CountNone(h.admitted, (x: Admitted) => x.start == w.start);
    }
  }

  lemma {:induction false} RunKeeps(c: Config, times: seq<int>)
    requires c.limit > 0 && c.width > 0 && Ordered(times)
    ensures Spaced(c, Run(c, times)) && Counting(c, Run(c, times))
    ensures times != [] ==> Run(c, times).window.Some? && Run(c, times).window.value.start <= times[|times| - 1]
  {
    if times != [] {
      var k := |times| - 1;
      RunKeeps(c, times[..k]);
      ServeSpaced(c, Run(c, times[..k]), times[k]);
      ServeCounting(c, Run(c, times[..k]), times[k]);
    }
  }

  /** At most `limit` requests are admitted by one fixed window; windows start at least a width apart. */
  lemma FixedWindowBound(c: Config, times: seq<int>, s: int)
    requires c.limit > 0 && c.width > 0 && Ordered(times)
    ensures InWindow(Run(c, times), s) <= c.limit
    ensures forall x, y :: x in Run(c, times).admitted && y in Run(c, times).admitted && x.start < y.start
                           ==> x.start + c.width <= y.start
  {
    RunKeeps(c, times);
  }

  /** Any half-open interval as long as a window admits fewer than twice the limit. */
  lemma SlidingBound(c: Config, times: seq<int>, a: int)
    requires c.limit > 0 && c.width > 0 && Ordered(times)
    ensures Between(Run(c, times), a, a + c.width) <= 2 * c.limit - 1
  {
    var h := Run(c, times);
    RunKeeps(c, times);
    var here := (x: Admitted) => a <= x.at < a + c.width;
    if y :| y in h.admitted && here(y) {
      if z :| z in h.admitted && here(z) && z.start != y.start {
        if z.start < y.start { TwoWindows(c, h, a, z.start, y.start); } else { TwoWindows(c, h, a, y.start, z.start); }
      } else {
        CountWeaken(h.admitted, here, (x: Admitted) => x.start == y.start);
        assert InWindow(h, y.start) <= c.limit;
      }
    } else {
      CountNone(h.admitted, here);
    }
  }

  /** When two windows share the interval, the earlier one's opening request came before it. */
  lemma TwoWindows(c: Config, h: History, a: int, s: int, t: int)
    requires c.limit > 0 && c.width > 0 && Spaced(c, h) && Counting(c, h)
    requires s < t && exists x, y :: x in h.admitted && y in h.admitted && x.start == s && y.start == t
                                     && a <= x.at < a + c.width && a <= y.at < a + c.width
    ensures Between(h, a, a + c.width) <= 2 * c.limit - 1
  {
    var early := (x: Admitted) => x.start == s && x.at != s;
    var late := (x: Admitted) => x.start == t;
    var x, y :| x in h.admitted && y in h.admitted && x.start == s && y.start == t
                && a <= x.at < a + c.width && a <= y.at < a + c.width;
    CountSplit(h.admitted, (z: Admitted) => a <= z.at < a + c.width, early, late);
    CountWithout(h.admitted, (z: Admitted) => z.start == s, early, Admitted(s, s));
    assert InWindow(h, s) <= c.limit && InWindow(h, t) <= c.limit;
  }

  /** A stronger condition that some element meets only without it counts at least one fewer. */
  lemma {:induction false} CountWithout<T>(s: seq<T>, p: T -> bool, q: T -> bool, x: T)
    requires x in s && p(x) && !q(x) && forall y :: y in s && q(y) ==> p(y)
    ensures Count(s, q) < Count(s, p)
  {
    var k := |s| - 1;
    assert forall y :: y in s[..k] ==> y in s;
    assert s[k] in s;
    if s[k] == x { CountWeaken(s[..k], q, p); } else { CountWithout(s[..k], p, q, x); }
  }

  // --- The sliding bound is met -----------------------------------------------------------------

  lemma RunAppend(c: Config, times: seq<int>, at: int)
    ensures Run(c, times + [at]) == Serve(c, Run(c, times), at)
  {
    assert (times + [at])[..|times|] == times;
  }

  lemma ServeFits(c: Config, h: History, at: int, a: int, b: int)
    requires h.window.Some? && at - h.window.value.start < c.width && h.window.value.count < c.limit
    ensures var g := Serve(c, h, at);
            && g.window == Some(Window(h.window.value.start, h.window.value.count + 1))
            && Between(g, a, b) == Between(h, a, b) + if a <= at < b then 1 else 0
  {
    hide Count;
    CountAppend(h.admitted, Admitted(at, h.window.value.start), (x: Admitted) => a <= x.at < b);
  }

  /** A burst that fits in the current window is admitted whole. */
  lemma {:induction false} BurstAdmitted(c: Config, times: seq<int>, n: nat, at: int, a: int, b: int)
    requires var h := Run(c, times);
             h.window.Some? && at - h.window.value.start < c.width && h.window.value.count + n <= c.limit
    requires a <= at < b
    ensures var h, g := Run(c, times), Run(c, times + seq(n, _ => at));
            && g.window == Some(Window(h.window.value.start, h.window.value.count + n))
            && Between(g, a, b) == Between(h, a, b) + n
  {
    hide Serve, Between, Run;
    if n == 0 {
      assert times + seq(0, _ => at) == times;
    } else {
      BurstAdmitted(c, times, n - 1, at, a, b);
      var some := times + seq(n - 1, _ => at);
      assert times + seq(n, _ => at) == some + [at];
      RunAppend(c, some, at);
      ServeFits(c, Run(c, some), at, a, b);
    }
  }

  /** Opening a fresh window: one request admitted. */
  lemma OpeningAdmitted(c: Config, times: seq<int>, at: int, a: int, b: int)
    requires c.limit > 0 && c.width > 0
    requires var h := Run(c, times); h.window.Some? ==> at - h.window.value.start >= c.width
    ensures var h, g := Run(c, times), Run(c, times + [at]);
            && g.window == Some(Window(at, 1))
            && Between(g, a, b) == Between(h, a, b) + if a <= at < b then 1 else 0
  {
    RunAppend(c, times, at);
    CountAppend(Run(c, times).admitted, Admitted(at, at), (x: Admitted) => a <= x.at < b);
  }

  /** One request, a burst at the end of its window, a full window right after: no smaller bound holds. */
  function Straddle(c: Config): seq<int>
    requires c.limit > 0
  {
    [0] + seq(c.limit - 1, _ => c.width - 1) + [c.width] + seq(c.limit - 1, _ => c.width)
  }

  lemma StraddleOrdered(c: Config)
    requires c.limit > 0 && c.width > 1
    ensures Ordered(Straddle(c))
  {}

  lemma SlidingBoundIsMet(c: Config)
    requires c.limit > 0 && c.width > 1
    ensures Ordered(Straddle(c))
    ensures Between(Run(c, Straddle(c)), c.width - 1, c.width - 1 + c.width) == 2 * c.limit - 1
  {
    hide Run, Between, Serve;
    StraddleOrdered(c);
    var a, b := c.width - 1, c.width - 1 + c.width;
    FirstHalf(c);
    var first := [0] + seq(c.limit - 1, _ => a);
    OpeningAdmitted(c, first, c.width, a, b);
    BurstAdmitted(c, first + [c.width], c.limit - 1, c.width, a, b);
  }

  lemma NothingYet(c: Config, a: int, b: int)
    ensures Run(c, []) == History(None, []) && Between(Run(c, []), a, b) == 0
  {}

  lemma FirstHalf(c: Config)
    requires c.limit > 0 && c.width > 1
    ensures var h := Run(c, [0] + seq(c.limit - 1, _ => c.width - 1));
            h.window == Some(Window(0, c.limit)) && Between(h, c.width - 1, c.width - 1 + c.width) == c.limit - 1
  {
    var a, b := c.width - 1, c.width - 1 + c.width;
    NothingYet(c, a, b);
    hide Run, Between, Serve;
    OpeningAdmitted(c, [], 0, a, b);
    assert [] + [0] == [0];
    BurstAdmitted(c, [0], c.limit - 1, a, a, b);
  }

  // --- The limiter ------------------------------------------------------------------------------

  datatype Request<K> = Request(key: K, at: int)

  /** The times of one key's requests. */
  function TimesOf<K(==)>(trace: seq<Request<K>>, key: K): seq<int> {
    if trace == [] then []
    else TimesOf(trace[..|trace| - 1], key) + if trace[|trace| - 1].key == key then [trace[|trace| - 1].at] else []
  }

  lemma TimesAppend<K>(trace: seq<Request<K>>, r: Request<K>, key: K)
    ensures TimesOf(trace + [r], key) == TimesOf(trace, key) + if r.key == key then [r.at] else []
  {
    assert (trace + [r])[..|trace|] == trace;
  }

  lemma {:induction false} TimesInOrder<K>(trace: seq<Request<K>>, key: K)
    requires forall i, j :: 0 <= i <= j < |trace| ==> trace[i].at <= trace[j].at
    ensures Ordered(TimesOf(trace, key))
    ensures forall t :: t in TimesOf(trace, key) ==> exists i :: 0 <= i < |trace| && trace[i].at == t
  {
    if trace != [] {
      var k := |trace| - 1;
      TimesInOrder(trace[..k], key);
      var front := TimesOf(trace[..k], key);
      forall i | 0 <= i < |front| ensures front[i] <= trace[k].at { assert front[i] in front; }
    }
  }

  lemma AdmitsWithinLimit(c: Config, h: History, now: int)
    ensures Serve(c, h, now).admitted != h.admitted <==> Counted(c, h.window, now).count <= c.limit
  {}

  /** Over any trace in time order, whatever the other keys do: both bounds, for every key. */
  lemma TraceBounds<K>(c: Config, trace: seq<Request<K>>, key: K, a: int, s: int)
    requires c.limit > 0 && c.width > 0
    requires forall i, j :: 0 <= i <= j < |trace| ==> trace[i].at <= trace[j].at
    ensures var h := Run(c, TimesOf(trace, key));
            InWindow(h, s) <= c.limit && Between(h, a, a + c.width) <= 2 * c.limit - 1
  {
    TimesInOrder(trace, key);
    FixedWindowBound(c, TimesOf(trace, key), s);
    SlidingBound(c, TimesOf(trace, key), a);
  }

  function At<K>(windows: map<K, Window>, k: K): Option<Window> {
    if k in windows then Some(windows[k]) else None
  }

  /** Every key's window is the one its own requests alone would have left. */
  ghost predicate Isolated<K(!new)>(c: Config, windows: map<K, Window>, trace: seq<Request<K>>) {
    forall k :: Run(c, TimesOf(trace, k)).window == At(windows, k)
  }

  lemma RecordIsolated<K(!new)>(c: Config, windows: map<K, Window>, trace: seq<Request<K>>, key: K, now: int)
    requires Isolated(c, windows, trace)
    ensures Isolated(c, windows[key := Counted(c, At(windows, key), now)], trace + [Request(key, now)])
  {
    var after := windows[key := Counted(c, At(windows, key), now)];
    forall k ensures Run(c, TimesOf(trace + [Request(key, now)], k)).window == At(after, k) {
      TimesAppend(trace, Request(key, now), k);
      if k == key {
        RunAppend(c, TimesOf(trace, key), now);
      } else {
        assert TimesOf(trace, k) + [] == TimesOf(trace, k);
      }
    }
  }

  class RateLimiter<K(==,!new)> {
    const c: Config
    var windows: map<K, Window>
    var limited: nat
    ghost var trace: seq<Request<K>>

    ghost predicate Valid()
      reads this
    {
      Isolated(c, windows, trace)
    }

    constructor (c: Config)
      ensures Valid() && this.c == c && trace == [] && limited == 0
    {
      this.c := c;
      windows, limited, trace := map[], 0, [];
    }

    /** Record one request and answer whether it is admitted; a limit of 0 or less admits everything. */
    method Check(key: K, now: int) returns (allowed: bool, retryAfter: int)
      requires Valid()
      modifies this
      ensures Valid() && limited == old(limited) + if allowed then 0 else 1
      ensures c.limit <= 0 ==> allowed && windows == old(windows) && trace == old(trace)
      ensures c.limit > 0 ==> trace == old(trace) + [Request(key, now)]
      ensures c.limit > 0 ==>
                var h := Run(c, old(TimesOf(trace, key)));
                allowed <==> Serve(c, h, now).admitted != h.admitted
      ensures !allowed ==> key in windows && retryAfter == windows[key].start + c.width - now
      ensures allowed ==> retryAfter == 0
    {
      if c.limit <= 0 { return true, 0; }
      hide Run, TimesOf;
      RecordIsolated(c, windows, trace, key, now);
      ghost var h := Run(c, TimesOf(trace, key));
      assert h.window == At(windows, key);
      AdmitsWithinLimit(c, h, now);
      hide Serve, Isolated;
      var start, count: nat := now, 0;
      if key in windows { start, count := windows[key].start, windows[key].count; }
      var elapsed := now - start;
      if elapsed >= c.width {
        start, count := now, 0;
        elapsed := 0;
      }
      count := count + 1;
      windows := windows[key := Window(start, count)];
      trace := trace + [Request(key, now)];
      if count > c.limit {
        limited := limited + 1;
        return false, c.width - elapsed;
      }
      return true, 0;
    }
  }
}
