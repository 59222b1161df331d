/** The audit export: one sorted query read as keyset-paginated batches. */
module Pagination {
  import opened StableSort
  import opened Options

  /** An audit row: its timestamp, its primary key (compared in the key's own order) and its tenant. */
  datatype Row = Row(ts: int, id: int, tenant: int)

  datatype Filter = Filter(since: Option<int>, until: Option<int>, tenant: Option<int>)

  predicate Matches(f: Filter, r: Row) {
    && (f.since.Some? ==> r.ts >= f.since.value)
    && (f.until.Some? ==> r.ts <= f.until.value)
    && (f.tenant.Some? ==> r.tenant == f.tenant.value)
  }

  /** The order of the export: (ts, action_id). */
  predicate Leq(a: Row, b: Row) { a.ts < b.ts || (a.ts == b.ts && a.id <= b.id) }

  predicate Less(a: Row, b: Row) { a.ts < b.ts || (a.ts == b.ts && a.id < b.id) }

  /** `(ts, action_id) > cursor`; no cursor before the first page. */
  predicate After(cursor: Option<Row>, r: Row) { cursor.Some? ==> Less(cursor.value, r) }

  function Select(t: seq<Row>, f: Filter, cursor: Option<Row>): seq<Row> {
    if t == [] then []
    else (if Matches(f, t[0]) && After(cursor, t[0]) then [t[0]] else []) + Select(t[1..], f, cursor)
  }

  /** The query without its LIMIT. */
  function Query(t: seq<Row>, f: Filter, cursor: Option<Row>): seq<Row> { Sort(Select(t, f, cursor), Leq) }

  function Limit(s: seq<Row>, n: nat): seq<Row> { if |s| <= n then s else s[..n] }

  /** The rows yielded so far, and whether the generator returned. */
  datatype Outcome = Outcome(rows: seq<Row>, finished: bool)

  /** The export over the states of the table that successive queries see, one state per page. */
  function Pages(tables: seq<seq<Row>>, f: Filter, cursor: Option<Row>, batch: nat): Outcome {
    if tables == [] then Outcome([], false)
    else
      var page := Limit(Query(tables[0], f, cursor), batch);
      if |page| == 0 || |page| < batch then Outcome(page, true)
      else
        var rest := Pages(tables[1..], f, Some(page[|page| - 1]), batch);
        Outcome(page + rest.rows, rest.finished)
  }

  method Export(tables: seq<seq<Row>>, f: Filter, batch: nat) returns (rows: seq<Row>, finished: bool)
    ensures Outcome(rows, finished) == Pages(tables, f, None, batch)
  {
    rows, finished := [], false;
    var cursor: Option<Row> := None;
    var i := 0;
    while i < |tables|
      invariant 0 <= i <= |tables| && !finished
      invariant var rest := Pages(tables[i..], f, cursor, batch);
                Pages(tables, f, None, batch) == Outcome(rows + rest.rows, rest.finished)
    {
      var page := Limit(Query(tables[i], f, cursor), batch);
      assert tables[i..][1..] == tables[i + 1..];
      if |page| == 0 { finished := true; assert rows + page == rows; return; }
      ghost var before := rows;
      rows := rows + page;
      if |page| < batch { finished := true; return; }
      cursor := Some(page[|page| - 1]);
      assert forall q :: before + (page + q) == rows + q;
      i := i + 1;
    }
    assert rows + [] == rows;
  }

  /** A row is in the query exactly when it is in the table, within the bounds and the tenant that are set, and past
      the cursor in (ts, action_id). */
  lemma QueryHas(t: seq<Row>, f: Filter, cursor: Option<Row>, r: Row)
    ensures r in Query(t, f, cursor)
            <==> r in t && (f.since.None? || f.since.value <= r.ts) && (f.until.None? || r.ts <= f.until.value)
                 && (f.tenant.None? || f.tenant.value == r.tenant)
                 && (cursor.None? || cursor.value.ts < r.ts || (cursor.value.ts == r.ts && cursor.value.id < r.id))
  {
    LeqIsTotal();
    SortMembers(Select(t, f, cursor), Leq);
    SelectHas(t, f, cursor, r);
  }

  lemma LeqIsTotal()
    ensures TotalPreorder(Leq)
  {}

  lemma {:induction false} SelectHas(t: seq<Row>, f: Filter, cursor: Option<Row>, r: Row)
    ensures r in Select(t, f, cursor) <==> r in t && Matches(f, r) && After(cursor, r)
  {
    if t != [] {
      SelectHas(t[1..], f, cursor, r);
      assert t == [t[0]] + t[1..];
    }
  }

  // --- The query --------------------------------------------------------------------------------

  /** `action_id` is the primary key. */
  ghost predicate Keyed(t: seq<Row>) { forall i, j :: 0 <= i < j < |t| ==> t[i].id != t[j].id }

  ghost predicate Ascending(s: seq<Row>) { forall i, j :: 0 <= i < j < |s| ==> Less(s[i], s[j]) }

  lemma {:induction false} SelectIs(t: seq<Row>, f: Filter, cursor: Option<Row>)
    ensures forall r :: r in Select(t, f, cursor) <==> r in t && Matches(f, r) && After(cursor, r)
    ensures Keyed(t) ==> Keyed(Select(t, f, cursor))
    ensures |Select(t, f, cursor)| <= |t|
  {
    if t != [] {
      SelectIs(t[1..], f, cursor);
      var s := Select(t[1..], f, cursor);
      if Keyed(t) {
        forall k | 0 <= k < |s| ensures s[k].id != t[0].id { assert s[k] in t[1..]; }
      }
      assert forall r :: r in t <==> r == t[0] || r in t[1..];
    }
  }

  lemma {:induction false} InsertAscending(x: Row, s: seq<Row>)
    requires Ascending(s) && forall y :: y in s ==> y.id != x.id
    ensures Ascending(Insert(x, s, Leq)) && |Insert(x, s, Leq)| == |s| + 1
    ensures forall y :: y in Insert(x, s, Leq) <==> y == x || y in s
  {
    if s != [] {
      assert s[0] in s;
      if Leq(x, s[0]) {
        forall k | 0 <= k < |s| ensures Less(x, s[k]) {}
      } else {
        InsertAscending(x, s[1..]);
        var r := Insert(x, s[1..], Leq);
        forall k | 0 <= k < |r| ensures Less(s[0], r[k]) { assert r[k] in r; }
        assert forall y :: y in s <==> y == s[0] || y in s[1..];
      }
    }
  }

  lemma {:induction false} SortAscending(s: seq<Row>)
    requires Keyed(s)
    ensures Ascending(Sort(s, Leq)) && |Sort(s, Leq)| == |s|
    ensures forall y :: y in Sort(s, Leq) <==> y in s
  {
    if s != [] {
      SortAscending(s[1..]);
      InsertAscending(s[0], Sort(s[1..], Leq));
      assert forall y :: y in s <==> y == s[0] || y in s[1..];
    }
  }

  /** The query's answer: exactly the matching rows past the cursor, strictly ascending. */
  lemma QueryIs(t: seq<Row>, f: Filter, cursor: Option<Row>)
    requires Keyed(t)
    ensures Ascending(Query(t, f, cursor)) && |Query(t, f, cursor)| <= |t|
    ensures forall r :: r in Query(t, f, cursor) <==> r in t && Matches(f, r) && After(cursor, r)
  {
    SelectIs(t, f, cursor);
    SortAscending(Select(t, f, cursor));
  }

  // --- The export -------------------------------------------------------------------------------

  /** Between pages rows may be inserted, never removed. */
  ghost predicate Growing(tables: seq<seq<Row>>) {
    && (forall i :: 0 <= i < |tables| ==> Keyed(tables[i]))
    && (forall i, j, r :: 0 <= i <= j < |tables| && r in tables[i] ==> r in tables[j])
  }

  /** The rows yielded strictly ascend from the cursor, and each is a matching row some page saw. */
  ghost predicate Sound(out: seq<Row>, tables: seq<seq<Row>>, f: Filter, cursor: Option<Row>) {
    && Ascending(out)
    && (forall r :: r in out ==> Matches(f, r) && After(cursor, r) && exists i :: 0 <= i < |tables| && r in tables[i])
  }

  lemma PageSound(tables: seq<seq<Row>>, f: Filter, cursor: Option<Row>, batch: nat)
    requires tables != [] && Growing(tables)
    ensures Sound(Limit(Query(tables[0], f, cursor), batch), tables, f, cursor)
  {
    QueryIs(tables[0], f, cursor);
  }

  lemma JoinSound(page: seq<Row>, rest: seq<Row>, tables: seq<seq<Row>>, f: Filter, cursor: Option<Row>)
    requires tables != [] && page != [] && Sound(page, tables, f, cursor)
    requires Sound(rest, tables[1..], f, Some(page[|page| - 1]))
    ensures Sound(page + rest, tables, f, cursor)
  {
    var last := page[|page| - 1];
    var out := page + rest;
    forall i, j | 0 <= i < j < |out| ensures Less(out[i], out[j]) {
      if i < |page| <= j {
        assert out[j] in rest;
        assert i == |page| - 1 || Less(page[i], last);
      }
    }
    forall r | r in rest ensures After(cursor, r) && exists i :: 0 <= i < |tables| && r in tables[i] {
      assert last in page;
      var i :| 0 <= i < |tables[1..]| && r in tables[1..][i];
      assert r in tables[i + 1];
    }
  }

  /** Strictly ascending, so no row twice, however the table grows while it is being read. */
  lemma {:induction false} ExportAscends(tables: seq<seq<Row>>, f: Filter, cursor: Option<Row>, batch: nat)
    requires Growing(tables)
    ensures Sound(Pages(tables, f, cursor, batch).rows, tables, f, cursor)
    decreases |tables|
  {
    if tables != [] {
      PageSound(tables, f, cursor, batch);
      var page := Limit(Query(tables[0], f, cursor), batch);
      if |page| != 0 && |page| >= batch {
        ExportAscends(tables[1..], f, Some(page[|page| - 1]), batch);
        JoinSound(page, Pages(tables[1..], f, Some(page[|page| - 1]), batch).rows, tables, f, cursor);
      }
    }
  }

  /** A row the query found is on its page, or past the page's last row. */
  lemma OnPageOrLater(s: seq<Row>, batch: nat, r: Row)
    requires Ascending(s) && r in s
    ensures var page := Limit(s, batch);
            r in page || (|page| == batch && (batch > 0 ==> Less(page[batch - 1], r)))
  {
    var k :| 0 <= k < |s| && s[k] == r;
    if |s| > batch && k < batch { assert s[..batch][k] == r; }
  }

  /** A finished export contains every matching row present from the first page on. */
  lemma {:induction false} ExportComplete(tables: seq<seq<Row>>, f: Filter, cursor: Option<Row>, batch: nat, r: Row)
    requires Growing(tables) && batch > 0 && Pages(tables, f, cursor, batch).finished
    requires tables != [] && r in tables[0] && Matches(f, r) && After(cursor, r)
    ensures r in Pages(tables, f, cursor, batch).rows
    decreases |tables|
  {
    QueryIs(tables[0], f, cursor);
    OnPageOrLater(Query(tables[0], f, cursor), batch, r);
    var page := Limit(Query(tables[0], f, cursor), batch);
    if r !in page && |tables| > 1 {
      assert r in tables[1];
      ExportComplete(tables[1..], f, Some(page[|page| - 1]), batch, r);
    }
  }

  lemma FewerAfterPage(t: seq<Row>, f: Filter, cursor: Option<Row>, batch: nat)
    requires Keyed(t) && batch > 0 && |Query(t, f, cursor)| >= batch
    ensures var q := Query(t, f, cursor);
            Query(t, f, Some(q[batch - 1])) == q[batch..]
  {
    hide Query;
    var q := Query(t, f, cursor);
    QueryIs(t, f, cursor);
    QueryIs(t, f, Some(q[batch - 1]));
    assert q[batch - 1] in q;
    forall r ensures r in q[batch..] <==> r in q && Less(q[batch - 1], r) { PastThePage(q, batch, r); }
    AscendingUnique(Query(t, f, Some(q[batch - 1])), q[batch..]);
  }

  /** What lies past a page is what comes after its last row. */
  lemma PastThePage(q: seq<Row>, batch: nat, r: Row)
    requires Ascending(q) && 0 < batch <= |q|
    ensures r in q[batch..] <==> r in q && Less(q[batch - 1], r)
  {
    if r in q[batch..] {
      var k :| 0 <= k < |q[batch..]| && q[batch..][k] == r;
      assert q[batch + k] == r;
    } else if r in q {
      assert q == q[..batch] + q[batch..];
      var k :| 0 <= k < batch && q[..batch][k] == r;
      assert k == batch - 1 || Less(r, q[batch - 1]);
    }
  }

  /** Strictly ascending sequences with the same rows are equal. */
  lemma {:induction false} AscendingUnique(a: seq<Row>, b: seq<Row>)
    requires Ascending(a) && Ascending(b) && forall r :: r in a <==> r in b
    ensures a == b
    decreases |a|
  {
    assert |b| > 0 ==> b[0] in b && b[0] in a;
    if a != [] {
      assert a[0] in b && b[0] in a;
      assert a[0] == b[0];
      forall r ensures r in a[1..] <==> r in b[1..] {
        if r in a[1..] { assert r in a && r != a[0]; }
        if r in b[1..] { assert r in b && r != b[0]; }
      }
      AscendingUnique(a[1..], b[1..]);
    }
  }

  lemma OnePage(tables: seq<seq<Row>>, f: Filter, cursor: Option<Row>, batch: nat, q: seq<Row>)
    requires tables != [] && batch > 0 && q == Query(tables[0], f, cursor)
    ensures |q| < batch ==> Pages(tables, f, cursor, batch) == Outcome(q, true)
    ensures |q| >= batch ==> var rest := Pages(tables[1..], f, Some(q[batch - 1]), batch);
                             Pages(tables, f, cursor, batch) == Outcome(q[..batch] + rest.rows, rest.finished)
  {
    hide Query;
    assert |q| == batch ==> q[..batch] == q;
  }

  /** On a table that does not change, the pages in order are the whole query, in at most |query| + 1 pages. */
  lemma {:induction false} PagesAreTheQuery(t: seq<Row>, pages: nat, f: Filter, cursor: Option<Row>, batch: nat)
    requires Keyed(t) && batch > 0 && pages > |Query(t, f, cursor)|
    ensures Pages(seq(pages, _ => t), f, cursor, batch) == Outcome(Query(t, f, cursor), true)
    decreases pages
  {
    hide Pages, Query, Keyed;
    var tables := seq(pages, _ => t);
    var q := Query(t, f, cursor);
    OnePage(tables, f, cursor, batch, q);
    if |q| >= batch {
      FewerAfterPage(t, f, cursor, batch);
      assert tables[1..] == seq(pages - 1, _ => t);
      PagesAreTheQuery(t, pages - 1, f, Some(q[batch - 1]), batch);
      assert q == q[..batch] + q[batch..];
    }
  }

  ghost predicate WholeQuery(t: seq<Row>, f: Filter, batch: nat) {
    Pages(seq(|t| + 1, _ => t), f, None, batch) == Outcome(Query(t, f, None), true)
  }

  /** The export refines the plain query on a fixed table, whatever the batch size. */
  lemma ExportRefinesQuery(t: seq<Row>, f: Filter, batch: nat)
    requires Keyed(t) && batch > 0
    ensures WholeQuery(t, f, batch)
    ensures Ascending(Query(t, f, None)) && forall r :: r in Query(t, f, None) <==> r in t && Matches(f, r)
  {
    QueryIs(t, f, None);
    PagesAreTheQuery(t, |t| + 1, f, None, batch);
  }

  /** A zero batch exports nothing, and says it is done. */
  lemma ZeroBatchIsEmpty(tables: seq<seq<Row>>, f: Filter)
    requires tables != []
    ensures Pages(tables, f, None, 0) == Outcome([], true)
  {
    assert |Limit(Query(tables[0], f, None), 0)| == 0;
  }

  /** So the export is complete on every table if and only if the batch is not zero. */
  lemma CompleteIffPositiveBatch(batch: nat)
    ensures batch > 0 <==> forall t: seq<Row>, f: Filter :: Keyed(t) ==> WholeQuery(t, f, batch)
  {
    if batch > 0 {
      forall t: seq<Row>, f: Filter | Keyed(t)
        ensures WholeQuery(t, f, batch)
      {
        ExportRefinesQuery(t, f, batch);
      }
    } else {
      var t, f := [Row(0, 0, 0)], Filter(None, None, None);
      QueryIs(t, f, None);
      ZeroBatchIsEmpty(seq(|t| + 1, _ => t), f);
      assert Row(0, 0, 0) in Query(t, f, None);
      assert Keyed(t) && !WholeQuery(t, f, batch);
    }
  }
}
