/** Tumbling-window aggregation and the table it is upserted into, against one batch group-by. */
module Windows {
  import opened StableSort
  import opened Options

  const SECOND: int := 1_000_000

  /** An event: its key (ranked in the keys' own order), its event time in microseconds, its value. */
  datatype Event = Event(key: int, ts: int, value: real)

  /** A cell's identity: its key and the start of its window. */
  datatype Id = Id(key: int, start: int)

  /** A cell's accumulator: event count, sum of values, latest event time. */
  datatype Totals = Totals(count: nat, sum: real, last: int)

  datatype Cell = Cell(id: Id, totals: Totals)

  function Max(a: int, b: int): int { if a < b then b else a }

  /** Whole seconds since the epoch, truncated toward zero. */
  function Trunc(ts: int): int { if ts >= 0 then ts / SECOND else -((-ts) / SECOND) }

  /** The window's start: whole seconds floored to a multiple of the width's whole seconds. */
  function WindowStart(ts: int, width: int): int
    requires width >= SECOND
  {
    (Trunc(ts) / (width / SECOND)) * (width / SECOND) * SECOND
  }

  function IdOf(e: Event, width: int): Id
    requires width >= SECOND
  {
    Id(e.key, WindowStart(e.ts, width))
  }

  /** An event lies in its own window, except just before a window that starts at or before the epoch. */
  lemma InItsWindowIff(ts: int, width: int)
    requires width >= SECOND
    ensures WindowStart(ts, width) <= ts < WindowStart(ts, width) + width
            <==> !(ts < 0 && ts % SECOND != 0 && Trunc(ts) % (width / SECOND) == 0)
  {
    var q, w := Trunc(ts), width / SECOND;
    var k := q / w;
    FloorMultiple(q, w);
    assert w * SECOND <= width;
    assert ts >= 0 ==> q * SECOND <= ts < q * SECOND + SECOND;
    assert ts < 0 ==> q * SECOND - SECOND < ts <= q * SECOND;
    assert ts < 0 ==> (ts % SECOND == 0 <==> ts == q * SECOND);
  }

  lemma FloorMultiple(q: int, w: int)
    requires w > 0
    ensures q / w * w + q % w == q && 0 <= q % w < w
  {}

  /** Windows tile the time line: starts are multiples of the width's whole seconds, and a time has the start of the
      tile its whole seconds fall in. From the epoch on the whole seconds are the time itself, so two windows are equal
      or a width apart and every moment of a window has that window. */
  lemma WindowsTile(ts: int, u: int, width: int)
    requires width >= SECOND
    ensures var tile, start := (width / SECOND) * SECOND, WindowStart(ts, width);
            && tile > 0 && start % tile == 0
            && (WindowStart(u, width) == start <==> start <= Trunc(u) * SECOND < start + tile)
            && (u >= 0 && start <= u < start + tile ==> WindowStart(u, width) == start)
            && (ts >= 0 ==> start <= ts < start + tile)
            && (WindowStart(u, width) == start || start + tile <= WindowStart(u, width) || WindowStart(u, width) + tile <= start)
  {
    var w := width / SECOND;
    var k, l := Trunc(ts) / w, Trunc(u) / w;
    FloorMultiple(Trunc(ts), w);
    FloorMultiple(Trunc(u), w);
    StartIs(k, w);
    Tiles(k, l, w);
    SameTile(k, Trunc(u), w);
    assert ts >= 0 ==> Trunc(ts) * SECOND <= ts < Trunc(ts) * SECOND + SECOND;
    assert u >= 0 ==> Trunc(u) * SECOND <= u < Trunc(u) * SECOND + SECOND;
  }

  lemma NotNegative(a: int, w: int)
    requires a >= 0 && w > 0
    ensures a * w >= 0
  {}

  lemma Apart(k: int, l: int, w: int)
    requires w > 0 && k < l
    ensures k * w + w <= l * w
  {
    NotNegative(l - k - 1, w);
    assert (l - k - 1) * w == l * w - k * w - w;
  }

  lemma StartIs(k: int, w: int)
    requires w > 0
    ensures (k * w * SECOND) % (w * SECOND) == 0
  {
    var m := w * SECOND;
    var x := k * m;
    assert k * w * SECOND == x;
    FloorMultiple(x, m);
    if x / m < k { Apart(x / m, k, m); }
    if k < x / m { Apart(k, x / m, m); }
  }

  lemma Tiles(k: int, l: int, w: int)
    requires w > 0
    ensures k == l || k * w + w <= l * w || l * w + w <= k * w
  {
    if k < l { Apart(k, l, w); }
    if l < k { Apart(l, k, w); }
  }

  lemma SameTile(k: int, t: int, w: int)
    requires w > 0
    ensures t / w == k <==> k * w <= t < k * w + w
  {
    FloorMultiple(t, w);
    Tiles(k, t / w, w);
  }

  // --- The aggregator ---------------------------------------------------------------------------

  function Single(e: Event): Totals { Totals(1, e.value, e.ts) }

  function Merge(a: Option<Totals>, b: Option<Totals>): Option<Totals> {
    if a.None? then b
    else if b.None? then a
    else Some(Totals(a.value.count + b.value.count, a.value.sum + b.value.sum, Max(a.value.last, b.value.last)))
  }

  lemma MergeAssociates(a: Option<Totals>, b: Option<Totals>, c: Option<Totals>)
    ensures Merge(Merge(a, b), c) == Merge(a, Merge(b, c))
  {}

  function At(cells: map<Id, Totals>, id: Id): Option<Totals> {
    if id in cells then Some(cells[id]) else None
  }

  /** `WindowState.add`. */
  function Accumulate(t: Totals, ts: int, value: real): Totals {
    Totals(t.count + 1, t.sum + value, if ts > t.last then ts else t.last)
  }

  predicate Precedes(a: Id, b: Id) { a.start < b.start || (a.start == b.start && a.key < b.key) }

  predicate CellLeq(a: Cell, b: Cell) { a.id == b.id || Precedes(a.id, b.id) }

  ghost predicate InOrder(s: seq<Cell>) { forall i, j :: 0 <= i < j < |s| ==> Precedes(s[i].id, s[j].id) }

  ghost predicate Distinct(s: seq<Cell>) { forall i, j :: 0 <= i < j < |s| ==> s[i].id != s[j].id }

  /** The cells of `m` picked by `p`, in (window, key) order. */
  ghost predicate Lists(done: seq<Cell>, m: map<Id, Totals>, p: Id -> bool) {
    && InOrder(done)
    && (forall c :: c in done <==> c.id in m && p(c.id) && m[c.id] == c.totals)
  }

  /** A dictionary's values, each once, in no particular order. */
  method Values(m: map<Id, Totals>) returns (vals: seq<Cell>)
    ensures forall c :: c in vals <==> c.id in m && m[c.id] == c.totals
    ensures Distinct(vals)
  {
    vals := [];
    var rest := m.Keys;
    while rest != {}
      invariant rest <= m.Keys
      invariant forall c :: c in vals <==> c.id in m && c.id !in rest && m[c.id] == c.totals
      invariant Distinct(vals)
      decreases rest
    {
      var id :| id in rest;
      forall i | 0 <= i < |vals| ensures vals[i].id != id { assert vals[i] in vals; }
      rest := rest - {id};
      vals := vals + [Cell(id, m[id])];
    }
  }

  lemma {:induction false} InsertLists(x: Cell, s: seq<Cell>)
    requires InOrder(s)
    requires forall y :: y in s ==> y.id != x.id
    ensures InOrder(Insert(x, s, CellLeq))
    ensures forall y :: y in Insert(x, s, CellLeq) <==> y == x || y in s
  {
    if s != [] {
      assert s[0] in s;
      if CellLeq(x, s[0]) {
        forall k | 0 <= k < |s| ensures Precedes(x.id, s[k].id) {}
      } else {
        InsertLists(x, s[1..]);
        assert forall i :: 0 <= i < |s| - 1 ==> s[1..][i] == s[i + 1];
        var r := Insert(x, s[1..], CellLeq);
        forall k | 0 <= k < |r| ensures Precedes(s[0].id, r[k].id) { assert r[k] in r; }
        assert forall y :: y in s <==> y == s[0] || y in s[1..];
      }
    }
  }

  lemma {:induction false} SortLists(s: seq<Cell>)
    requires Distinct(s)
    ensures InOrder(Sort(s, CellLeq))
    ensures forall y :: y in Sort(s, CellLeq) <==> y in s
  {
    if s != [] {
      SortLists(s[1..]);
      InsertLists(s[0], Sort(s[1..], CellLeq));
      assert forall y :: y in s <==> y == s[0] || y in s[1..];
    }
  }

  method Ended(vals: seq<Cell>, width: int, watermark: int) returns (past: seq<Cell>)
    requires Distinct(vals)
    ensures Distinct(past) && forall c :: c in past <==> c in vals && c.id.start + width <= watermark
  {
    past := [];
    for i := 0 to |vals|
      invariant forall c :: c in past <==> c in vals[..i] && c.id.start + width <= watermark
      invariant Distinct(past)
    {
      if vals[i].id.start + width <= watermark {
        forall a | 0 <= a < |past| ensures past[a].id != vals[i].id { assert past[a] in vals[..i]; }
        past := past + [vals[i]];
      }
    }
    assert vals[..|vals|] == vals;
  }

  lemma EndedGone(m: map<Id, Totals>, past: seq<Cell>, width: int, watermark: int)
    requires forall c :: c in past <==> c.id in m && m[c.id] == c.totals && c.id.start + width <= watermark
    ensures forall id :: id in m ==> ((forall k :: 0 <= k < |past| ==> past[k].id != id) <==> id.start + width > watermark)
  {
    forall id | id in m && id.start + width <= watermark ensures exists k :: 0 <= k < |past| && past[k].id == id {
      assert Cell(id, m[id]) in past;
    }
    forall k | 0 <= k < |past| ensures past[k].id.start + width <= watermark { assert past[k] in past; }
  }

  class WindowAggregator {
    const width: int
    var cells: map<Id, Totals>

    constructor (width: int)
      ensures this.width == width && cells == map[]
    {
      this.width := width;
      cells := map[];
    }

    /** Add an event to its cell, opening the cell if need be. */
    method Add(e: Event)
      requires width >= SECOND
      modifies this`cells
      ensures var id := IdOf(e, width);
              cells == old(cells)[id := Merge(At(old(cells), id), Some(Single(e))).value]
    {
      var id := Id(e.key, WindowStart(e.ts, width));
      var cell := if id in cells then cells[id] else Totals(0, 0.0, e.ts);
      cells := cells[id := Accumulate(cell, e.ts, e.value)];
    }

    /** Emit what the watermark has passed, in (window, key) order. */
    method Flush(watermark: int) returns (done: seq<Cell>)
      modifies this`cells
      ensures Lists(done, old(cells), (id: Id) => id.start + width <= watermark)
      ensures forall i, j :: 0 <= i < j < |done| ==>
                done[i].id.start < done[j].id.start || (done[i].id.start == done[j].id.start && done[i].id.key < done[j].id.key)
      ensures cells == map id | id in old(cells) && !(id.start + width <= watermark) :: old(cells)[id]
    {
      var vals := Values(cells);
      var past := Ended(vals, width, watermark);
      for i := 0 to |past|
        invariant forall id :: id in cells <==> id in old(cells) && forall k :: 0 <= k < i ==> past[k].id != id
        invariant forall id :: id in cells ==> cells[id] == old(cells)[id]
      {
        cells := cells - {past[i].id};
      }
      EndedGone(old(cells), past, width, watermark);
      SortLists(past);
      done := Sort(past, CellLeq);
    }

    /** Emit whatever is still open, in the same order. */
    method FlushAll() returns (done: seq<Cell>)
      modifies this`cells
      ensures Lists(done, old(cells), (id: Id) => true)
      ensures cells == map[]
    {
      var vals := Values(cells);
      SortLists(vals);
      done := Sort(vals, CellLeq);
      cells := map[];
    }
  }

  // --- What happens to one cell over a run ------------------------------------------------------

  datatype Op = Arrive(e: Event) | Watermark(ts: int) | Drain

  predicate Adds(op: Op, id: Id, width: int)
    requires width >= SECOND
  {
    op.Arrive? && IdOf(op.e, width) == id
  }

  predicate Closes(op: Op, id: Id, width: int) {
    op.Drain? || (op.Watermark? && id.start + width <= op.ts)
  }

  /** A cell's life: its open accumulator, and the accumulators it was emitted with so far. */
  datatype Track = Track(open: Option<Totals>, emitted: seq<Totals>)

  function Next(t: Track, op: Op, id: Id, width: int): Track
    requires width >= SECOND
  {
    if Adds(op, id, width) then t.(open := Merge(t.open, Some(Single(op.e))))
    else if Closes(op, id, width) && t.open.Some? then Track(None, t.emitted + [t.open.value])
    else t
  }

  function TrackOf(ops: seq<Op>, id: Id, width: int): Track
    requires width >= SECOND
  {
    if ops == [] then Track(None, [])
    else Next(TrackOf(ops[..|ops| - 1], id, width), ops[|ops| - 1], id, width)
  }

  /** The batch answer: every event of the run grouped by key and window. */
  function GroupBy(ops: seq<Op>, id: Id, width: int): Option<Totals>
    requires width >= SECOND
  {
    if ops == [] then None
    else
      var g := GroupBy(ops[..|ops| - 1], id, width);
      if Adds(ops[|ops| - 1], id, width) then Merge(g, Some(Single(ops[|ops| - 1].e))) else g
  }

  /** The events of a run that belong to a cell, in arrival order. */
  function Members(ops: seq<Op>, id: Id, width: int): seq<Event>
    requires width >= SECOND
  {
    if ops == [] then []
    else
      var op := ops[|ops| - 1];
      Members(ops[..|ops| - 1], id, width)
      + if op.Arrive? && op.e.key == id.key && WindowStart(op.e.ts, width) == id.start then [op.e] else []
  }

  function SumOf(es: seq<Event>): real { if es == [] then 0.0 else SumOf(es[..|es| - 1]) + es[|es| - 1].value }

  /** The batch answer is the number of the cell's events, the sum of their values and the latest of their times. */
  lemma {:induction false} GroupByIs(ops: seq<Op>, id: Id, width: int)
    requires width >= SECOND
    ensures var g, es := GroupBy(ops, id, width), Members(ops, id, width);
            && (g.None? <==> es == [])
            && (g.Some? ==>
                  && g.value.count == |es| && g.value.sum == SumOf(es)
                  && (forall e :: e in es ==> e.ts <= g.value.last) && exists e :: e in es && e.ts == g.value.last)
  {
    if ops != [] {
      GroupByIs(ops[..|ops| - 1], id, width);
      var op, es := ops[|ops| - 1], Members(ops[..|ops| - 1], id, width);
      if op.Arrive? && op.e.key == id.key && WindowStart(op.e.ts, width) == id.start {
        assert (es + [op.e])[..|es|] == es;
        var e := if es != [] && op.e.ts < GroupBy(ops[..|ops| - 1], id, width).value.last
                 then (var e :| e in es && e.ts == GroupBy(ops[..|ops| - 1], id, width).value.last; e) else op.e;
        assert e in es + [op.e] && e.ts == GroupBy(ops, id, width).value.last;
      } else {
        assert es + [] == es;
      }
    }
  }

  function MergeAll(parts: seq<Totals>): Option<Totals> {
    if parts == [] then None else Merge(MergeAll(parts[..|parts| - 1]), Some(parts[|parts| - 1]))
  }

  /** Nothing is lost or counted twice: emitted and open parts merge to the group-by. */
  lemma {:induction false} PartsMergeToGroupBy(ops: seq<Op>, id: Id, width: int)
    requires width >= SECOND
    ensures var t := TrackOf(ops, id, width); Merge(MergeAll(t.emitted), t.open) == GroupBy(ops, id, width)
  {
    if ops != [] {
      var k := |ops| - 1;
      PartsMergeToGroupBy(ops[..k], id, width);
      var t := TrackOf(ops[..k], id, width);
      if Adds(ops[k], id, width) {
        MergeAssociates(MergeAll(t.emitted), t.open, Some(Single(ops[k].e)));
      } else if t.open.Some? {
        assert (t.emitted + [t.open.value])[..|t.emitted|] == t.emitted;
      }
    }
  }

  /** Accumulators are never empty. */
  lemma {:induction false} PartsNotEmpty(ops: seq<Op>, id: Id, width: int)
    requires width >= SECOND
    ensures var t := TrackOf(ops, id, width);
            (t.open.Some? ==> t.open.value.count > 0) && forall p :: p in t.emitted ==> p.count > 0
  {
    if ops != [] { PartsNotEmpty(ops[..|ops| - 1], id, width); }
  }

  lemma {:induction false} MergeAllCounts(parts: seq<Totals>)
    requires forall p :: p in parts ==> p.count > 0
    ensures parts != [] ==> MergeAll(parts).Some? && MergeAll(parts).value.count > 0
  {
    if parts != [] {
      assert forall p :: p in parts[..|parts| - 1] ==> p in parts;
      MergeAllCounts(parts[..|parts| - 1]);
    }
  }

  // --- When the table is exact ------------------------------------------------------------------

  /** The upserted row: the last emission. */
  function Row(t: Track): Option<Totals> { if t.emitted == [] then None else Some(t.emitted[|t.emitted| - 1]) }

  ghost predicate AddedBefore(ops: seq<Op>, n: nat, id: Id, width: int)
    requires width >= SECOND && n <= |ops|
  {
    exists i :: 0 <= i < n && Adds(ops[i], id, width)
  }

  ghost predicate ClosedBefore(ops: seq<Op>, n: nat, id: Id, width: int)
    requires width >= SECOND && n <= |ops|
  {
    exists j :: 0 <= j < n && Closes(ops[j], id, width) && AddedBefore(ops, j, id, width)
  }

  /** An event of the cell arrives after a flush or drain had already taken the cell's window. */
  ghost predicate Reopened(ops: seq<Op>, n: nat, id: Id, width: int)
    requires width >= SECOND && n <= |ops|
  {
    exists k :: 0 <= k < n && Adds(ops[k], id, width) && ClosedBefore(ops, k, id, width)
  }

  function Lives(t: Track): nat { |t.emitted| + if t.open.Some? then 1 else 0 }

  /** How often a cell lived, told by the order in which its events and flushes came. */
  lemma {:induction false} LivesAre(ops: seq<Op>, n: nat, id: Id, width: int)
    requires width >= SECOND && n <= |ops|
    ensures var t := TrackOf(ops[..n], id, width);
            && (Lives(t) > 0 <==> AddedBefore(ops, n, id, width))
            && (t.emitted != [] <==> ClosedBefore(ops, n, id, width))
            && (Lives(t) > 1 <==> Reopened(ops, n, id, width))
  {
    if n > 0 {
      var k := n - 1;
      LivesAre(ops, k, id, width);
      assert ops[..n][..k] == ops[..k] && ops[..n][k] == ops[k];
      BeforeStep(ops, k, id, width);
    }
  }

  lemma BeforeStep(ops: seq<Op>, k: nat, id: Id, width: int)
    requires width >= SECOND && k < |ops|
    ensures AddedBefore(ops, k + 1, id, width) <==> AddedBefore(ops, k, id, width) || Adds(ops[k], id, width)
    ensures ClosedBefore(ops, k + 1, id, width)
            <==> ClosedBefore(ops, k, id, width) || (Closes(ops[k], id, width) && AddedBefore(ops, k, id, width))
    ensures Reopened(ops, k + 1, id, width)
            <==> Reopened(ops, k, id, width) || (Adds(ops[k], id, width) && ClosedBefore(ops, k, id, width))
  {}

  /** After the final drain the table equals the batch group-by exactly on the cells never reopened. */
  lemma TableIsGroupByIff(ops: seq<Op>, id: Id, width: int)
    requires width >= SECOND && ops != [] && ops[|ops| - 1].Drain?
    ensures Row(TrackOf(ops, id, width)) == GroupBy(ops, id, width) <==> !Reopened(ops, |ops|, id, width)
  {
    var t := TrackOf(ops, id, width);
    assert ops[..|ops|] == ops;
    LivesAre(ops, |ops|, id, width);
    PartsMergeToGroupBy(ops, id, width);
    PartsNotEmpty(ops, id, width);
    assert t.open.None?;
    if |t.emitted| > 0 {
      var init := t.emitted[..|t.emitted| - 1];
      assert forall p :: p in init ==> p in t.emitted;
      MergeAllCounts(init);
      assert init == [] <==> |t.emitted| == 1;
    }
  }

  /** On a reopened cell the table undercounts: the row holds only the events of the last life. */
  lemma ReopenedRowUndercounts(ops: seq<Op>, id: Id, width: int)
    requires width >= SECOND && ops != [] && ops[|ops| - 1].Drain? && Reopened(ops, |ops|, id, width)
    ensures var r, g := Row(TrackOf(ops, id, width)), GroupBy(ops, id, width);
            r.Some? && g.Some? && r.value.count < g.value.count
  {
    var t := TrackOf(ops, id, width);
    assert ops[..|ops|] == ops;
    LivesAre(ops, |ops|, id, width);
    PartsMergeToGroupBy(ops, id, width);
    PartsNotEmpty(ops, id, width);
    var init := t.emitted[..|t.emitted| - 1];
    assert forall p :: p in init ==> p in t.emitted;
    MergeAllCounts(init);
  }

  // --- The session that owns an aggregator ------------------------------------------------------

  function Upsert(table: map<Id, Totals>, cells: seq<Cell>): map<Id, Totals> {
    if cells == [] then table
    else Upsert(table, cells[..|cells| - 1])[cells[|cells| - 1].id := cells[|cells| - 1].totals]
  }

  lemma {:induction false} UpsertIs(table: map<Id, Totals>, m: map<Id, Totals>, cells: seq<Cell>)
    requires forall c :: c in cells ==> c.id in m && m[c.id] == c.totals
    ensures forall id :: At(Upsert(table, cells), id)
                         == if exists c :: c in cells && c.id == id then At(m, id) else At(table, id)
  {
    if cells != [] {
      var k := |cells| - 1;
      assert forall c :: c in cells <==> c in cells[..k] || c == cells[k];
      UpsertIs(table, m, cells[..k]);
    }
  }

  /** The aggregator's cells and the table's rows are what the trace says of every cell. */
  ghost predicate Tracks(cells: map<Id, Totals>, table: map<Id, Totals>, log: seq<Op>, width: int)
    requires width >= SECOND
  {
    forall id :: At(cells, id) == TrackOf(log, id, width).open && At(table, id) == Row(TrackOf(log, id, width))
  }

  lemma TracksArrival(cells: map<Id, Totals>, table: map<Id, Totals>, log: seq<Op>, width: int, e: Event)
    requires width >= SECOND && Tracks(cells, table, log, width)
    ensures var id := IdOf(e, width);
            Tracks(cells[id := Merge(At(cells, id), Some(Single(e))).value], table, log + [Arrive(e)], width)
  {
    var own, ops := IdOf(e, width), log + [Arrive(e)];
    assert ops[..|log|] == log;
    var wider := cells[own := Merge(At(cells, own), Some(Single(e))).value];
    forall id ensures At(wider, id) == TrackOf(ops, id, width).open && At(table, id) == Row(TrackOf(ops, id, width)) {
      assert TrackOf(ops, id, width) == Next(TrackOf(log, id, width), Arrive(e), id, width);
    }
  }

  lemma TracksFlush(cells: map<Id, Totals>, table: map<Id, Totals>, log: seq<Op>, width: int, op: Op, done: seq<Cell>)
    requires width >= SECOND && Tracks(cells, table, log, width) && !op.Arrive?
    requires Lists(done, cells, (id: Id) => Closes(op, id, width))
    ensures var left := map id | id in cells && !Closes(op, id, width) :: cells[id];
            Tracks(left, Upsert(table, done), log + [op], width)
  {
    assert (log + [op])[..|log|] == log;
    UpsertIs(table, cells, done);
    var left := map id | id in cells && !Closes(op, id, width) :: cells[id];
    var up := Upsert(table, done);
    hide Upsert;
    forall id ensures At(left, id) == TrackOf(log + [op], id, width).open && At(up, id) == Row(TrackOf(log + [op], id, width)) {
      if id in cells && Closes(op, id, width) { assert Cell(id, cells[id]) in done; }
      hide Lists, Tracks;
      FlushOne(TrackOf(log, id, width), op, id, width);
    }
  }

  /** A flush or drain moves a closing cell's accumulator to its table row and leaves every other cell alone. */
  lemma FlushOne(t: Track, op: Op, id: Id, width: int)
    requires width >= SECOND && !op.Arrive?
    ensures var u := Next(t, op, id, width);
            && u.open == (if Closes(op, id, width) then None else t.open)
            && Row(u) == if Closes(op, id, width) && t.open.Some? then t.open else Row(t)
  {}

  class StreamSession {
    const agg: WindowAggregator
    var maxEventTs: Option<int>
    var table: map<Id, Totals>
    ghost var log: seq<Op>

    ghost predicate Valid()
      reads this, agg
    {
      agg.width >= SECOND && Tracks(agg.cells, table, log, agg.width)
    }

    constructor (width: int)
      requires width >= SECOND
      ensures Valid() && fresh(agg) && log == [] && maxEventTs == None && agg.width == width
    {
      agg := new WindowAggregator(width);
      maxEventTs, table, log := None, map[], [];
    }

    /** A worker takes one record off the queue. */
    method Consume(e: Event)
      requires Valid()
      modifies this, agg
      ensures Valid() && log == old(log) + [Arrive(e)] && table == old(table)
      ensures maxEventTs == Some(if old(maxEventTs).None? then e.ts else Max(old(maxEventTs).value, e.ts))
      ensures maxEventTs.value >= e.ts && (old(maxEventTs).Some? ==> maxEventTs.value >= old(maxEventTs).value)
      ensures maxEventTs.value == e.ts || maxEventTs == old(maxEventTs)
    {
      TracksArrival(agg.cells, table, log, agg.width, e);
      agg.Add(e);
      if maxEventTs.None? || e.ts > maxEventTs.value { maxEventTs := Some(e.ts); }
      log := log + [Arrive(e)];
    }

    method Write(done: seq<Cell>)
      modifies this`table
      ensures table == Upsert(old(table), done)
    {
      for i := 0 to |done|
        invariant table == Upsert(old(table), done[..i])
      {
        assert done[..i + 1][..i] == done[..i];
        table := table[done[i].id := done[i].totals];
      }
      assert done[..|done|] == done;
    }

    /** The flusher's tick: flush up to the latest event time seen, if any was. */
    method Tick()
      requires Valid()
      modifies this, agg
      ensures Valid() && maxEventTs == old(maxEventTs)
      ensures log == old(log) + if maxEventTs.Some? then [Watermark(maxEventTs.value)] else []
    {
      if maxEventTs.Some? {
        var w := maxEventTs.value;
        ghost var before := agg.cells;
        var done := agg.Flush(w);
        TracksFlush(before, table, log, agg.width, Watermark(w), done);
        log := log + [Watermark(w)];
        Write(done);
      }
    }

    /** When the session ends, what is open is written out as well. */
    method Stop()
      requires Valid()
      modifies this, agg
      ensures Valid() && log == old(log) + [Drain]
      ensures forall id :: At(table, id) == GroupBy(log, id, agg.width) <==> !Reopened(log, |log|, id, agg.width)
    {
      ghost var before := agg.cells;
      var done := agg.FlushAll();
      TracksFlush(before, table, log, agg.width, Drain, done);
      log := log + [Drain];
      Write(done);
      forall id ensures At(table, id) == GroupBy(log, id, agg.width) <==> !Reopened(log, |log|, id, agg.width) {
        TableIsGroupByIff(log, id, agg.width);
      }
    }
  }
}
