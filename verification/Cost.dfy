/** The cost ledger: a step series of worker counts integrated window by window. */
module Cost {
  import opened StableSort
  import opened Options

  /** A worker count observed at a time in microseconds. */
  datatype Sample = Sample(ts: int, workers: real)

  predicate Earlier(a: Sample, b: Sample) { a.ts <= b.ts }

  lemma EarlierIsTotal()
    ensures TotalPreorder(Earlier)
  {}

  // --- The step function and its integral -------------------------------------------------------

  /** The last sample at or before `t`: the greatest timestamp, the later one on ties. */
  function Best(s: seq<Sample>, t: int): Option<Sample> {
    if s == [] then None
    else
      var r := Best(s[1..], t);
      if s[0].ts <= t && (r.None? || s[0].ts > r.value.ts) then Some(s[0]) else r
  }

  /** Workers in effect at `t`, none before the first sample. */
  function Value(s: seq<Sample>, t: int): real {
    match Best(s, t)
    case None => 0.0
    case Some(x) => x.workers
  }

  /** The integral over [a, b): samples sit on whole ticks, so the series is constant on each tick. */
  function Integral(s: seq<Sample>, a: int, b: int): real
    decreases b - a
  {
    if b <= a then 0.0 else Integral(s, a, b - 1) + Value(s, b - 1)
  }

  lemma {:induction false} IntegralAdds(s: seq<Sample>, a: int, m: int, b: int)
    requires a <= m <= b
    ensures Integral(s, a, b) == Integral(s, a, m) + Integral(s, m, b)
    decreases b - m
  {
    if m < b { IntegralAdds(s, a, m, b - 1); }
  }

  lemma {:induction false} IntegralOfConstant(s: seq<Sample>, a: int, b: int, v: real)
    requires a <= b && forall t :: a <= t < b ==> Value(s, t) == v
    ensures Integral(s, a, b) == v * (b - a) as real
    decreases b - a
  {
    if a < b {
      IntegralOfConstant(s, a, b - 1, v);
      assert v * (b - a) as real == v * (b - 1 - a) as real + v;
    }
  }

  lemma {:induction false} IntegralSame(s: seq<Sample>, r: seq<Sample>, a: int, b: int)
    requires forall t :: a <= t < b ==> Value(s, t) == Value(r, t)
    ensures Integral(s, a, b) == Integral(r, a, b)
    decreases b - a
  {
    if a < b { IntegralSame(s, r, a, b - 1); }
  }

  lemma {:induction false} IntegralNonNegative(s: seq<Sample>, a: int, b: int)
    requires forall x :: x in s ==> x.workers >= 0.0
    ensures Integral(s, a, b) >= 0.0
    decreases b - a
  {
    if a < b {
      IntegralNonNegative(s, a, b - 1);
      BestBounds(s, b - 1);
    }
  }

  lemma {:induction false} BestBounds(s: seq<Sample>, t: int)
    ensures Best(s, t).Some? ==> Best(s, t).value in s && Best(s, t).value.ts <= t
    ensures Best(s, t).None? ==> forall x :: x in s ==> x.ts > t
    ensures Best(s, t).Some? ==> forall x :: x in s && x.ts <= t ==> x.ts <= Best(s, t).value.ts
  {
    if s != [] { BestBounds(s[1..], t); }
  }

  /** Sorting by time, stably, does not change the series. */
  lemma {:induction false} BestOfInsert(x: Sample, s: seq<Sample>, t: int)
    ensures Best(Insert(x, s, Earlier), t) == Best([x] + s, t)
  {
    assert ([x] + s)[1..] == s;
    if s != [] && !Earlier(x, s[0]) {
      BestOfInsert(x, s[1..], t);
      assert ([x] + s[1..])[1..] == s[1..];
    }
  }

  lemma {:induction false} BestOfSort(s: seq<Sample>, t: int)
    ensures Best(Sort(s, Earlier), t) == Best(s, t)
  {
    if s != [] {
      BestOfInsert(s[0], Sort(s[1..], Earlier), t);
      BestOfSort(s[1..], t);
      assert ([s[0]] + Sort(s[1..], Earlier))[1..] == Sort(s[1..], Earlier);
    }
  }

  lemma {:induction false} BestIs(s: seq<Sample>, t: int, i: nat)
    requires i < |s| && s[i].ts <= t
    requires forall j :: 0 <= j < i ==> s[j].ts <= s[i].ts
    requires forall j :: i < j < |s| ==> s[j].ts > t
    ensures Best(s, t) == Some(s[i])
  {
    if i == 0 {
      BestBounds(s[1..], t);
    } else {
      assert s[1..][i - 1] == s[i];
      BestIs(s[1..], t, i - 1);
    }
  }

  lemma {:induction false} BestSame(s: seq<Sample>, t: int, u: int)
    requires t <= u && forall x :: x in s ==> x.ts <= t || x.ts > u
    ensures Best(s, t) == Best(s, u)
  {
    if s != [] {
      BestSame(s[1..], t, u);
      assert s[0] in s;
    }
  }

  // --- integrate_worker_seconds -----------------------------------------------------------------

  function WorkersOr0(c: Option<real>): real { if c.Some? then c.value else 0.0 }

  /** What a held count adds over a length of time; nothing before the first sample. */
  function Held(c: Option<real>, len: int): (area: real)
    ensures area == WorkersOr0(c) * len as real
  {
    if c.Some? then c.value * len as real else 0.0
  }

  /** Which count is in force when the window opens. */
  method CountEntering(ordered: seq<Sample>, start: int) returns (current: Option<real>)
    requires Sorted(ordered, Earlier)
    ensures WorkersOr0(current) == Value(ordered, start)
  {
    current := None;
    ghost var k := 0;
    for i := 0 to |ordered|
      invariant 0 <= k <= i && (current.None? <==> k == 0)
      invariant k > 0 ==> current == Some(ordered[k - 1].workers) && ordered[k - 1].ts <= start
      invariant forall j :: k <= j < i ==> ordered[j].ts > start
    {
      if ordered[i].ts <= start {
        current := Some(ordered[i].workers);
        assert forall j :: k <= j < i ==> ordered[j].ts <= ordered[i].ts;
        k := i + 1;
      }
    }
    if k > 0 {
      BestIs(ordered, start, k - 1);
    } else {
      BestBounds(ordered, start);
    }
  }

  /** No unread sample lies in (start, t], so the count in hand is the one in effect at `t`. */
  ghost predicate InForce(ordered: seq<Sample>, i: nat, start: int, t: int) {
    forall j :: i <= j < |ordered| ==> ordered[j].ts > t || ordered[j].ts <= start
  }

  lemma EnteringInForce(ordered: seq<Sample>, start: int, t: int)
    requires start <= t && InForce(ordered, 0, start, t)
    ensures Value(ordered, t) == Value(ordered, start)
  {
    BestSame(ordered, start, t);
  }

  lemma SampleInForce(ordered: seq<Sample>, i: nat, start: int, t: int)
    requires Sorted(ordered, Earlier) && i < |ordered| && start < ordered[i].ts <= t
    requires InForce(ordered, i + 1, start, t)
    ensures Value(ordered, t) == ordered[i].workers
  {
    forall j | i < j < |ordered| ensures ordered[j].ts > t { assert Earlier(ordered[i], ordered[j]); }
    forall j | 0 <= j < i ensures ordered[j].ts <= ordered[i].ts { assert Earlier(ordered[j], ordered[i]); }
    BestIs(ordered, t, i);
  }

  /** The sweep has integrated up to `cursor`, and the count in hand holds until the next unread sample. */
  ghost predicate Swept(o: seq<Sample>, i: nat, start: int, end: int, cursor: int, current: Option<real>, total: real) {
    && start <= cursor < end && total == Integral(o, start, cursor)
    && (forall j :: i <= j < |o| && o[j].ts > start ==> o[j].ts >= cursor)
    && (forall t :: cursor <= t < end && InForce(o, i, start, t) ==> Value(o, t) == WorkersOr0(current))
  }

  lemma SweepStarts(o: seq<Sample>, start: int, end: int, current: Option<real>)
    requires start < end && WorkersOr0(current) == Value(o, start)
    ensures Swept(o, 0, start, end, start, current, 0.0)
  {
    forall t | start <= t < end && InForce(o, 0, start, t) ensures Value(o, t) == WorkersOr0(current) {
      EnteringInForce(o, start, t);
    }
  }

  lemma SweepSkips(o: seq<Sample>, i: nat, start: int, end: int, cursor: int, current: Option<real>, total: real)
    requires i < |o| && (o[i].ts <= start || o[i].ts >= end) && Swept(o, i, start, end, cursor, current, total)
    ensures Swept(o, i + 1, start, end, cursor, current, total)
  {
    forall t | cursor <= t < end && InForce(o, i + 1, start, t) ensures Value(o, t) == WorkersOr0(current) {
      assert InForce(o, i, start, t);
    }
  }

  /** Up to any later point before the next unread sample, the integral grows by count times length. */
  lemma SweepReaches(o: seq<Sample>, i: nat, start: int, end: int, cursor: int, current: Option<real>, total: real, to: int)
    requires Swept(o, i, start, end, cursor, current, total) && cursor <= to <= end
    requires forall j :: i <= j < |o| && o[j].ts > start ==> o[j].ts >= to
    ensures total + Held(current, to - cursor) == Integral(o, start, to)
  {
    forall t | cursor <= t < to ensures Value(o, t) == WorkersOr0(current) { assert InForce(o, i, start, t); }
    IntegralOfConstant(o, cursor, to, WorkersOr0(current));
    IntegralAdds(o, start, cursor, to);
  }

  lemma SweepTakes(o: seq<Sample>, i: nat, start: int, end: int, cursor: int, current: Option<real>, total: real)
    requires Sorted(o, Earlier) && i < |o| && start < o[i].ts < end
    requires Swept(o, i, start, end, cursor, current, total)
    ensures Swept(o, i + 1, start, end, o[i].ts, Some(o[i].workers), total + Held(current, o[i].ts - cursor))
  {
    forall j | i < j < |o| ensures o[j].ts >= o[i].ts { assert Earlier(o[i], o[j]); }
    SweepReaches(o, i, start, end, cursor, current, total, o[i].ts);
    forall t | o[i].ts <= t < end && InForce(o, i + 1, start, t) ensures Value(o, t) == o[i].workers {
      SampleInForce(o, i, start, t);
    }
  }

  method IntegrateOrdered(ordered: seq<Sample>, start: int, end: int) returns (total: real)
    requires Sorted(ordered, Earlier) && start < end
    ensures total == Integral(ordered, start, end)
  {
    total := 0.0;
    var current := CountEntering(ordered, start);
    var cursor := start;
    SweepStarts(ordered, start, end, current);
    for i := 0 to |ordered|
      invariant Swept(ordered, i, start, end, cursor, current, total)
    {
      if ordered[i].ts <= start || ordered[i].ts >= end {
        SweepSkips(ordered, i, start, end, cursor, current, total);
      } else {
        SweepTakes(ordered, i, start, end, cursor, current, total);
        total := total + Held(current, ordered[i].ts - cursor);
        cursor, current := ordered[i].ts, Some(ordered[i].workers);
      }
    }
    SweepReaches(ordered, |ordered|, start, end, cursor, current, total, end);
    total := total + Held(current, end - cursor);
  }

  /** The sweep over the sorted samples adds up to the integral of the step series. */
  method IntegrateWorkerSeconds(samples: seq<Sample>, start: int, end: int) returns (total: real)
    ensures total == Integral(samples, start, end)
  {
    if end <= start { return 0.0; }
    if samples == [] {
      IntegralOfConstant(samples, start, end, 0.0);
      return 0.0;
    }
    EarlierIsTotal();
    SortIsSort(samples, Earlier);
    total := IntegrateOrdered(Sort(samples, Earlier), start, end);
    forall t ensures Value(Sort(samples, Earlier), t) == Value(samples, t) { BestOfSort(samples, t); }
    IntegralSame(Sort(samples, Earlier), samples, start, end);
  }

  /** Samples after the window's end do not matter. */
  lemma {:induction false} LaterSamplesIgnored(s: seq<Sample>, a: int, b: int)
    ensures Integral(UpTo(s, b), a, b) == Integral(s, a, b)
  {
    forall t | a <= t < b ensures Value(UpTo(s, b), t) == Value(s, t) { BestUpTo(s, b, t); }
    IntegralSame(UpTo(s, b), s, a, b);
  }

  /** `... AND ts <= end`. */
  function UpTo(s: seq<Sample>, end: int): seq<Sample> {
    if s == [] then [] else (if s[0].ts <= end then [s[0]] else []) + UpTo(s[1..], end)
  }

  lemma {:induction false} BestUpTo(s: seq<Sample>, end: int, t: int)
    requires t <= end
    ensures Best(UpTo(s, end), t) == Best(s, t)
  {
    if s != [] {
      BestUpTo(s[1..], end, t);
      if s[0].ts <= end {
        assert UpTo(s, end)[1..] == UpTo(s[1..], end);
      } else {
        assert UpTo(s, end) == UpTo(s[1..], end);
      }
    }
  }

  // --- The ledger -------------------------------------------------------------------------------

  datatype Component = Streaming | Batch | Storage

  datatype Entry = Entry(component: Component, compute: real, storage: real, start: int, end: int)

  datatype Rates = Rates(compute: real, storage: real)

  function CostUnits(r: Rates, e: Entry): real { e.compute * r.compute + e.storage * r.storage }

  function ComputeTotal(rows: seq<Entry>, c: Component): real {
    if rows == [] then 0.0
    else ComputeTotal(rows[..|rows| - 1], c) + (if rows[|rows| - 1].component == c then rows[|rows| - 1].compute else 0.0)
  }

  function StorageTotal(rows: seq<Entry>): real {
    if rows == [] then 0.0 else StorageTotal(rows[..|rows| - 1]) + rows[|rows| - 1].storage
  }

  function CostTotal(r: Rates, rows: seq<Entry>): real {
    if rows == [] then 0.0 else CostTotal(r, rows[..|rows| - 1]) + CostUnits(r, rows[|rows| - 1])
  }

  function WindowsIn(rows: seq<Entry>): nat {
    if rows == [] then 0 else WindowsIn(rows[..|rows| - 1]) + (if rows[|rows| - 1].component.Storage? then 1 else 0)
  }

  function ComputeOfAll(rows: seq<Entry>): real {
    ComputeTotal(rows, Streaming) + ComputeTotal(rows, Batch) + ComputeTotal(rows, Storage)
  }

  lemma ComputeOfAllStep(rows: seq<Entry>)
    requires rows != []
    ensures ComputeOfAll(rows) == ComputeOfAll(rows[..|rows| - 1]) + rows[|rows| - 1].compute
  {}

  lemma Distribute(a: real, b: real, rate: real)
    ensures (a + b) * rate == a * rate + b * rate
  {}

  /** A ledger's cost is the rates applied to its totals. */
  lemma {:induction false} CostOfTotals(r: Rates, rows: seq<Entry>)
    ensures CostTotal(r, rows) == ComputeOfAll(rows) * r.compute + StorageTotal(rows) * r.storage
  {
    if rows == [] {
      assert ComputeOfAll(rows) == 0.0;
    } else {
      hide ComputeOfAll;
      var front, e := rows[..|rows| - 1], rows[|rows| - 1];
      CostOfTotals(r, front);
      ComputeOfAllStep(rows);
      Distribute(ComputeOfAll(front), e.compute, r.compute);
      Distribute(StorageTotal(front), e.storage, r.storage);
    }
  }

  lemma Append(rows: seq<Entry>, e: Entry)
    ensures forall c :: ComputeTotal(rows + [e], c) == ComputeTotal(rows, c) + (if e.component == c then e.compute else 0.0)
    ensures StorageTotal(rows + [e]) == StorageTotal(rows) + e.storage
    ensures WindowsIn(rows + [e]) == WindowsIn(rows) + (if e.component.Storage? then 1 else 0)
  {
    assert (rows + [e])[..|rows|] == rows;
  }

  /** The telemetry of one run: its samples per compute component, and the live storage size. */
  datatype Telemetry = Telemetry(streaming: seq<Sample>, batch: seq<Sample>, storageGb: real)

  function SamplesOf(t: Telemetry, c: Component): seq<Sample>
    requires !c.Storage?
  {
    if c.Streaming? then t.streaming else t.batch
  }

  ghost predicate Counts(t: Telemetry) {
    (forall x :: x in t.streaming ==> x.workers >= 0.0) && (forall x :: x in t.batch ==> x.workers >= 0.0)
  }

  const TICKS_PER_HOUR: real := 3_600_000_000.0

  function StorageOver(t: Telemetry, a: int, b: int): real { t.storageGb * ((b - a) as real / TICKS_PER_HOUR) }

  /** The run's ledger accounts for the telemetry over [lo, at): every component's integral, and storage. */
  ghost predicate Accounts(rows: seq<Entry>, t: Telemetry, lo: int, at: int) {
    && ComputeTotal(rows, Streaming) == Integral(t.streaming, lo, at)
    && ComputeTotal(rows, Batch) == Integral(t.batch, lo, at)
    && ComputeTotal(rows, Storage) == 0.0
    && StorageTotal(rows) == StorageOver(t, lo, at)
  }

  lemma TotalsOfSpan(rows: seq<Entry>, t: Telemetry, lo: int, at: int)
    requires Accounts(rows, t, lo, at)
    ensures ComputeOfAll(rows) == Integral(t.streaming, lo, at) + Integral(t.batch, lo, at)
    ensures StorageTotal(rows) == StorageOver(t, lo, at)
  {}

  /** So the run's cost is its rates applied to the whole span, however it was cut into windows. */
  lemma CostOfSpan(rows: seq<Entry>, t: Telemetry, r: Rates, lo: int, at: int)
    requires Accounts(rows, t, lo, at)
    ensures CostTotal(r, rows)
            == (Integral(t.streaming, lo, at) + Integral(t.batch, lo, at)) * r.compute + StorageOver(t, lo, at) * r.storage
  {
    hide *;
    TotalsOfSpan(rows, t, lo, at);
    CostOfTotals(r, rows);
  }

  /** `rows` after a window's rows for one component: its total grows by `x`, nothing else does. */
  ghost predicate AddsCompute(before: seq<Entry>, rows: seq<Entry>, c: Component, x: real) {
    && (forall d :: ComputeTotal(rows, d) == ComputeTotal(before, d) + (if d == c then x else 0.0))
    && StorageTotal(rows) == StorageTotal(before) && WindowsIn(rows) == WindowsIn(before)
  }

  /** Storage costs its size per hour, in proportion to the time; a busy component's one row is its worker time. */
  lemma RowsMean(t: Telemetry, c: Component, start: int, end: int)
    requires !c.Storage?
    ensures StorageOver(t, start, end) * 3_600_000_000.0 == t.storageGb * (end - start) as real
    ensures var cus := Integral(if c == Streaming then t.streaming else t.batch, start, end);
            BusyRows(t, c, start, end) == if cus > 0.0 then [Entry(c, cus, 0.0, start, end)] else []
  {}

  /** A window's two compute steps and its storage row extend the account to the window's end. */
  lemma WindowAccounts(t: Telemetry, lo: int, start: int, end: int,
                       r0: seq<Entry>, r1: seq<Entry>, r2: seq<Entry>)
    requires lo <= start <= end && Accounts(r0, t, lo, start)
    requires AddsCompute(r0, r1, Streaming, Integral(t.streaming, start, end))
    requires AddsCompute(r1, r2, Batch, Integral(t.batch, start, end))
    ensures var r3 := r2 + [Entry(Storage, 0.0, StorageOver(t, start, end), start, end)];
            Accounts(r3, t, lo, end) && WindowsIn(r3) == WindowsIn(r0) + 1
  {
    IntegralAdds(t.streaming, lo, start, end);
    IntegralAdds(t.batch, lo, start, end);
    StorageAdds(t, lo, start, end);
    Append(r2, Entry(Storage, 0.0, StorageOver(t, start, end), start, end));
  }

  /** A component's row for a window, none when it was idle. */
  function BusyRows(t: Telemetry, c: Component, start: int, end: int): seq<Entry>
    requires !c.Storage?
  {
    var cus := Integral(SamplesOf(t, c), start, end);
    if cus > 0.0 then [Entry(c, cus, 0.0, start, end)] else []
  }

  class Ledger {
    var rows: seq<Entry>

    constructor () ensures rows == [] { rows := []; }

    /** One component's row for a window, skipped when it was idle. */
    method WriteCompute(t: Telemetry, c: Component, start: int, end: int) returns (written: nat)
      requires Counts(t) && !c.Storage?
      modifies this
      ensures var i := Integral(SamplesOf(t, c), start, end);
              && rows == old(rows) + BusyRows(t, c, start, end)
              && AddsCompute(old(rows), rows, c, i)
      ensures |rows| == |old(rows)| + written
    {
      var cus := IntegrateWorkerSeconds(UpTo(SamplesOf(t, c), end), start, end);
      LaterSamplesIgnored(SamplesOf(t, c), start, end);
      IntegralNonNegative(SamplesOf(t, c), start, end);
      assert rows + [] == rows;
      if cus <= 0.0 { return 0; }
      Append(rows, Entry(c, cus, 0.0, start, end));
      rows := rows + [Entry(c, cus, 0.0, start, end)];
      written := 1;
    }

    /** The rows of a single window: idle components get none, storage always gets one. */
    method WriteWindow(t: Telemetry, ghost lo: int, start: int, end: int) returns (written: nat)
      requires Counts(t) && lo <= start <= end && Accounts(rows, t, lo, start)
      modifies this
      ensures Accounts(rows, t, lo, end)
      ensures WindowsIn(rows) == WindowsIn(old(rows)) + 1 && |rows| == |old(rows)| + written
      ensures rows == old(rows) + BusyRows(t, Streaming, start, end) + BusyRows(t, Batch, start, end)
                      + [Entry(Storage, 0.0, StorageOver(t, start, end), start, end)]
    {
      ghost var r0 := rows;
      var n := WriteCompute(t, Streaming, start, end);
      ghost var r1 := rows;
      var m := WriteCompute(t, Batch, start, end);
      WindowAccounts(t, lo, start, end, r0, r1, rows);
      rows := rows + [Entry(Storage, 0.0, StorageOver(t, start, end), start, end)];
      written := n + m + 1;
    }

    /** Rebuild the ledger over exactly [first sample, first sample + span]. */
    method ComputeFixedSpan(t: Telemetry, lo: int, delta: int, span: int) returns (written: nat)
      requires Counts(t) && delta > 0
      modifies this
      ensures Accounts(rows, t, lo, lo + if span > 0 then span else 0)
      ensures written == |rows|
    {
      rows, written := [], 0;
      var hi, start := lo + span, lo;
      while start < hi
        invariant lo <= start && (start <= hi || start == lo)
        invariant Accounts(rows, t, lo, start) && written == |rows|
        decreases hi - start
      {
        var end := if start + delta < hi then start + delta else hi;
        var n := WriteWindow(t, lo, start, end);
        written, start := written + n, end;
      }
    }

    /** Rebuild the ledger in whole windows from the first sample until a window past the last. */
    method ComputeCostWindows(t: Telemetry, lo: int, hi: int, delta: int) returns (written: nat)
      requires Counts(t) && delta > 0 && lo <= hi
      modifies this
      ensures WindowsIn(rows) == (hi - lo + delta - 1) / delta + 1
      ensures Accounts(rows, t, lo, lo + WindowsIn(rows) * delta)
      ensures written == |rows|
    {
      rows, written := [], 0;
      var start := lo;
      while start < hi + delta
        invariant start == lo + WindowsIn(rows) * delta
        invariant WindowsIn(rows) == 0 || lo + (WindowsIn(rows) - 1) * delta < hi + delta
        invariant Accounts(rows, t, lo, start) && written == |rows|
        decreases hi + delta - start
      {
        ghost var k := WindowsIn(rows);
        assert (k + 1) * delta == k * delta + delta;
        var end := start + delta;
        var n := WriteWindow(t, lo, start, end);
        written, start := written + n, end;
      }
      CeilingUnique(hi - lo, delta, WindowsIn(rows) - 1);
    }
  }

  lemma StorageAdds(t: Telemetry, lo: int, m: int, hi: int)
    ensures StorageOver(t, lo, hi) == StorageOver(t, lo, m) + StorageOver(t, m, hi)
  {
    assert (hi - lo) as real / TICKS_PER_HOUR == (m - lo) as real / TICKS_PER_HOUR + (hi - m) as real / TICKS_PER_HOUR;
  }

  /** The number of windows is a ceiling. */
  lemma CeilingUnique(len: int, delta: int, k: int)
    requires delta > 0 && (k - 1) * delta < len <= k * delta
    ensures k == (len + delta - 1) / delta
  {
    assert (k - 1) * delta == k * delta - delta;
    var q := (len + delta - 1) / delta;
    if q < k { MulMono(q + 1, k, delta); }
    if q > k { MulMono(k + 1, q, delta); }
  }

  lemma MulMono(a: int, b: int, d: int)
    requires a <= b && d > 0
    ensures a * d <= b * d
    ensures (a - 1) * d == a * d - d && (a + 1) * d == a * d + d
  {
    assert (b - a) * d >= 0;
    assert b * d == a * d + (b - a) * d;
  }
}
