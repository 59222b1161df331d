/** The resumable experiment runner: a two-file log (raw.csv rows, then a manifest line) that survives
    being killed between any two writes. */
module Runner {
  import opened Naming
  import opened Options

  datatype Run = Run(config: string, scenario: string, replicate: nat)
  datatype Metric = Metric(name: string, value: real)
  datatype Row = Row(runId: string, metric: Metric)

  function RunId(r: Run): string { Tagged(r.config, r.scenario, 'r', r.replicate) }

  /** The data rows of raw.csv (its header is written on creation) and the manifest's run ids. */
  datatype Files = Files(raw: seq<Row>, manifest: seq<string>)

  function RowsOf(raw: seq<Row>, id: string): seq<Row> {
    if raw == [] then []
    else RowsOf(raw[..|raw| - 1], id) + (if raw[|raw| - 1].runId == id then [raw[|raw| - 1]] else [])
  }

  function Without(raw: seq<Row>, id: string): seq<Row> {
    if raw == [] then []
    else Without(raw[..|raw| - 1], id) + (if raw[|raw| - 1].runId == id then [] else [raw[|raw| - 1]])
  }

  function RowsFor(id: string, metrics: seq<Metric>): (r: seq<Row>)
    ensures |r| == |metrics|
  {
    seq(|metrics|, i requires 0 <= i < |metrics| => Row(id, metrics[i]))
  }

  lemma RowsForAt(id: string, metrics: seq<Metric>)
    ensures forall i :: 0 <= i < |metrics| ==> RowsFor(id, metrics)[i] == Row(id, metrics[i])
  {}

  lemma OneMoreRow(kept: seq<Row>, rows: seq<Row>, i: nat)
    requires i < |rows|
    ensures kept + rows[..i + 1] == kept + rows[..i] + [rows[i]]
  {}

  /** One attempt at a run that is killed after `budget` file writes: the rewrite that drops old rows
      (skipped when there are none), one append per metric, then the manifest line. */
  function Attempt(f: Files, id: string, metrics: seq<Metric>, budget: nat): Files {
    var dropped := Without(f.raw, id);
    if dropped != f.raw && budget == 0 then f
    else
      var left := if dropped != f.raw then budget - 1 else budget;
      if left <= |metrics| then f.(raw := dropped + RowsFor(id, metrics)[..left])
      else Files(dropped + RowsFor(id, metrics), f.manifest + [id])
  }

  /** Writes one attempt needs to get its manifest line out. */
  function Cost(f: Files, id: string, metrics: seq<Metric>): nat {
    (if Without(f.raw, id) != f.raw then 1 else 0) + |metrics| + 1
  }

  // --- The consistency of the two files ---------------------------------------------------------

  /** Every run in the manifest is listed once and has exactly the rows of its finished attempt;
      every other row belongs to a run the manifest does not list. */
  ghost predicate Consistent(f: Files, finished: map<string, seq<Metric>>) {
    && (forall i, j :: 0 <= i < j < |f.manifest| ==> f.manifest[i] != f.manifest[j])
    && finished.Keys == (set id | id in f.manifest)
    && forall id :: id in finished ==> RowsOf(f.raw, id) == RowsFor(id, finished[id])
  }

  /** `finished` after an attempt: extended when the manifest line was reached. */
  ghost function Finished(f: Files, finished: map<string, seq<Metric>>, id: string, metrics: seq<Metric>, budget: nat):
    map<string, seq<Metric>>
  {
    if budget >= Cost(f, id, metrics) then finished[id := metrics] else finished
  }

  /** The ways an attempt ends: before the rewrite, within the appended rows, or whole. */
  lemma AttemptCases(f: Files, finished: map<string, seq<Metric>>, id: string, metrics: seq<Metric>, budget: nat)
    ensures var kept, after := Without(f.raw, id), Attempt(f, id, metrics, budget);
            var rewrites := if kept != f.raw then 1 else 0;
            && Cost(f, id, metrics) == rewrites + |metrics| + 1
            && (budget < rewrites ==> after == f)
            && (rewrites <= budget <= rewrites + |metrics| ==>
                  after == f.(raw := kept + RowsFor(id, metrics)[..budget - rewrites]))
            && (budget <= rewrites + |metrics| ==> Finished(f, finished, id, metrics, budget) == finished)
            && (budget > rewrites + |metrics| ==>
                  && after == Files(kept + RowsFor(id, metrics), f.manifest + [id])
                  && Finished(f, finished, id, metrics, budget) == finished[id := metrics])
  {}

  lemma RowsAppend(rows: seq<Row>, r: Row, id: string)
    ensures RowsOf(rows + [r], id) == RowsOf(rows, id) + if r.runId == id then [r] else []
    ensures Without(rows + [r], id) == Without(rows, id) + if r.runId == id then [] else [r]
  {
    assert (rows + [r])[..|rows|] == rows;
  }

  lemma {:induction false} WithoutFacts(raw: seq<Row>, id: string, o: string)
    ensures o == id ==> RowsOf(Without(raw, id), o) == []
    ensures o != id ==> RowsOf(Without(raw, id), o) == RowsOf(raw, o)
    ensures |Without(raw, id)| + |RowsOf(raw, id)| == |raw|
    ensures RowsOf(raw, id) == [] ==> Without(raw, id) == raw
  {
    if raw != [] {
      hide RowsOf, Without;
      var front, last := raw[..|raw| - 1], raw[|raw| - 1];
      assert raw == front + [last];
      WithoutFacts(front, id, o);
      WithoutOneMore(front, last, id, o);
    }
  }

  lemma WithoutOneMore(rows: seq<Row>, r: Row, id: string, o: string)
    requires o == id ==> RowsOf(Without(rows, id), o) == []
    requires o != id ==> RowsOf(Without(rows, id), o) == RowsOf(rows, o)
    requires |Without(rows, id)| + |RowsOf(rows, id)| == |rows|
    requires RowsOf(rows, id) == [] ==> Without(rows, id) == rows
    ensures o == id ==> RowsOf(Without(rows + [r], id), o) == []
    ensures o != id ==> RowsOf(Without(rows + [r], id), o) == RowsOf(rows + [r], o)
    ensures |Without(rows + [r], id)| + |RowsOf(rows + [r], id)| == |rows| + 1
    ensures RowsOf(rows + [r], id) == [] ==> Without(rows + [r], id) == rows + [r]
  {
    RowsAppend(rows, r, id);
    RowsAppend(rows, r, o);
    RowsAppend(Without(rows, id), r, o);
    hide RowsOf, Without;
    assert Without(rows, id) + [] == Without(rows, id) && RowsOf(rows, o) + [] == RowsOf(rows, o);
  }

  lemma {:induction false} RowsOfConcat(a: seq<Row>, b: seq<Row>, id: string)
    ensures RowsOf(a + b, id) == RowsOf(a, id) + RowsOf(b, id)
  {
    if b == [] {
      assert a + b == a;
    } else {
      var k := |b| - 1;
      RowsOfConcat(a, b[..k], id);
      assert (a + b)[..|a + b| - 1] == a + b[..k];
    }
  }

  lemma {:induction false} RowsOfOwn(rows: seq<Row>, id: string, o: string)
    requires forall r :: r in rows ==> r.runId == id
    ensures RowsOf(rows, o) == if o == id then rows else []
  {
    if rows != [] {
      var k := |rows| - 1;
      assert rows == rows[..k] + [rows[k]];
      RowsOfOwn(rows[..k], id, o);
    }
  }

  lemma AttemptRows(f: Files, id: string, metrics: seq<Metric>, budget: nat, o: string)
    ensures o != id ==> RowsOf(Attempt(f, id, metrics, budget).raw, o) == RowsOf(f.raw, o)
    ensures budget >= Cost(f, id, metrics) ==> RowsOf(Attempt(f, id, metrics, budget).raw, id) == RowsFor(id, metrics)
    ensures Attempt(f, id, metrics, budget).manifest ==
              if budget >= Cost(f, id, metrics) then f.manifest + [id] else f.manifest
  {
    var dropped := Without(f.raw, id);
    WithoutFacts(f.raw, id, o);
    WithoutFacts(f.raw, id, id);
    var left := if dropped != f.raw then budget - 1 else budget;
    if left >= 0 {
      var part := if left <= |metrics| then RowsFor(id, metrics)[..left] else RowsFor(id, metrics);
      RowsOfConcat(dropped, part, o);
      RowsOfConcat(dropped, part, id);
      RowsOfOwn(part, id, o);
      RowsOfOwn(part, id, id);
    }
  }

  /** An attempt at a run not yet in the manifest keeps the files consistent wherever it is killed. */
  lemma AttemptKeepsConsistent(f: Files, finished: map<string, seq<Metric>>, id: string, metrics: seq<Metric>, budget: nat)
    requires Consistent(f, finished) && id !in f.manifest
    ensures Consistent(Attempt(f, id, metrics, budget), Finished(f, finished, id, metrics, budget))
  {
    var g, fin := Attempt(f, id, metrics, budget), Finished(f, finished, id, metrics, budget);
    AttemptRows(f, id, metrics, budget, id);
    forall o | o in fin ensures RowsOf(g.raw, o) == RowsFor(o, fin[o]) {
      AttemptRows(f, id, metrics, budget, o);
    }
    assert fin.Keys == (set o | o in g.manifest);
  }

  // --- Any history of attempts, kills and resumes -----------------------------------------------

  datatype Try = Try(id: string, metrics: seq<Metric>, budget: nat)

  /** A resumed process skips what the manifest lists and attempts anything else. */
  function Resume(f: Files, tries: seq<Try>): Files {
    if tries == [] then f
    else
      var g := Resume(f, tries[..|tries| - 1]);
      var t := tries[|tries| - 1];
      if t.id in g.manifest then g else Attempt(g, t.id, t.metrics, t.budget)
  }

  /** Over any history the manifest lists no run twice and each listed run has one complete copy. */
  lemma {:induction false} AnyHistoryIsConsistent(tries: seq<Try>) returns (finished: map<string, seq<Metric>>)
    ensures Consistent(Resume(Files([], []), tries), finished)
    ensures forall id :: id in finished ==> exists t :: t in tries && t.id == id && t.metrics == finished[id]
  {
    finished := map[];
    if tries != [] {
      var k := |tries| - 1;
      var before := AnyHistoryIsConsistent(tries[..k]);
      var g, t := Resume(Files([], []), tries[..k]), tries[k];
      finished := if t.id in g.manifest then before else Finished(g, before, t.id, t.metrics, t.budget);
      if t.id !in g.manifest { AttemptKeepsConsistent(g, before, t.id, t.metrics, t.budget); }
      forall id | id in finished ensures exists u :: u in tries && u.id == id && u.metrics == finished[id] {
        if id in before && finished[id] == before[id] {
          var u :| u in tries[..k] && u.id == id && u.metrics == before[id];
          assert u in tries;
        } else {
          assert t in tries;
        }
      }
    }
  }

  // --- The runner itself ------------------------------------------------------------------------

  predicate Wanted(r: Run, done: set<string>, configs: Option<set<string>>) {
    RunId(r) !in done && (configs.None? || r.config in configs.value)
  }

  /** The profile's runs still to do, in profile order. */
  function Remaining(profile: seq<Run>, done: set<string>, configs: Option<set<string>>): (todo: seq<Run>)
    ensures forall r :: r in todo <==> r in profile && Wanted(r, done, configs)
    ensures |todo| <= |profile|
  {
    if profile == [] then []
    else (if Wanted(profile[0], done, configs) then [profile[0]] else []) + Remaining(profile[1..], done, configs)
  }

  /** A run remains exactly when it is in the profile, not in the manifest, and of a wanted configuration. */
  lemma RemainingIs(profile: seq<Run>, done: set<string>, configs: Option<set<string>>, r: Run)
    ensures r in Remaining(profile, done, configs)
            <==> r in profile && RunId(r) !in done && (configs.None? || r.config in configs.value)
    ensures RunId(r) == r.config + "__" + r.scenario + "__r" + Decimal(r.replicate)
  {
    NamesSpell(r.config, r.scenario, r.replicate);
  }

  predicate DistinctIds(runs: seq<Run>) {
    forall i, j :: 0 <= i < j < |runs| ==> RunId(runs[i]) != RunId(runs[j])
  }

  /** A configuration name with no double underscore and none at its end. */
  predicate CleanName(config: string) { NoDouble(config) && (config == "" || config[|config| - 1] != '_') }

  /** Run ids of clean configurations are distinct exactly when the runs are. */
  lemma DistinctIdsIff(runs: seq<Run>)
    requires forall r :: r in runs ==> CleanName(r.config)
    ensures DistinctIds(runs) <==> forall i, j :: 0 <= i < j < |runs| ==> runs[i] != runs[j]
  {
    forall i, j | 0 <= i < j < |runs| && RunId(runs[i]) == RunId(runs[j]) ensures runs[i] == runs[j] {
      var a, b := runs[i], runs[j];
      assert a in runs && b in runs;
      RunIdInjective(a.config, a.scenario, a.replicate, b.config, b.scenario, b.replicate);
    }
  }

  // --- How far a process gets -------------------------------------------------------------------

  /** The files it leaves, how many runs it finished, and whether it survived. */
  datatype Progress = Progress(files: Files, ran: nat, alive: bool)

  /** A to-do list attempted in order by a process killed after `budget` writes. */
  function Attempts(f: Files, todo: seq<Run>, measure: Run -> seq<Metric>, budget: nat): (p: Progress)
    ensures p.ran <= |todo| && (p.alive ==> p.ran == |todo|)
    decreases |todo|
  {
    if todo == [] then Progress(f, 0, true)
    else
      var id, metrics := RunId(todo[0]), measure(todo[0]);
      var g := Attempt(f, id, metrics, budget);
      if budget < Cost(f, id, metrics) then Progress(g, 0, false)
      else
        var rest := Attempts(g, todo[1..], measure, budget - Cost(f, id, metrics));
        Progress(rest.files, rest.ran + 1, rest.alive)
  }

  /** The writes a whole to-do list needs. */
  function TotalCost(f: Files, todo: seq<Run>, measure: Run -> seq<Metric>): nat
    decreases |todo|
  {
    if todo == [] then 0
    else
      var id, metrics := RunId(todo[0]), measure(todo[0]);
      Cost(f, id, metrics) + TotalCost(Attempt(f, id, metrics, Cost(f, id, metrics)), todo[1..], measure)
  }

  lemma EnoughIsEnough(f: Files, id: string, metrics: seq<Metric>, budget: nat)
    requires budget >= Cost(f, id, metrics)
    ensures Attempt(f, id, metrics, budget) == Attempt(f, id, metrics, Cost(f, id, metrics))
  {}

  /** A process survives its to-do list exactly when it is not killed before the writes the list needs. */
  lemma {:induction false} SurvivesIff(f: Files, todo: seq<Run>, measure: Run -> seq<Metric>, budget: nat)
    ensures Attempts(f, todo, measure, budget).alive <==> budget >= TotalCost(f, todo, measure)
    decreases |todo|
  {
    if todo != [] {
      var id, metrics := RunId(todo[0]), measure(todo[0]);
      if budget >= Cost(f, id, metrics) {
        EnoughIsEnough(f, id, metrics, budget);
        hide Attempt, Cost, RunId;
        SurvivesIff(Attempt(f, id, metrics, budget), todo[1..], measure, budget - Cost(f, id, metrics));
      }
    }
  }

  lemma {:induction false} RemainingDistinct(profile: seq<Run>, done: set<string>, configs: Option<set<string>>)
    requires DistinctIds(profile)
    ensures DistinctIds(Remaining(profile, done, configs))
  {
    if profile != [] {
      RemainingDistinct(profile[1..], done, configs);
      var rest := Remaining(profile[1..], done, configs);
      forall r | r in rest ensures RunId(r) != RunId(profile[0]) {
        var i :| 0 <= i < |profile[1..]| && profile[1..][i] == r;
        assert profile[i + 1] == r;
      }
    }
  }

  lemma AttemptsFrom(f: Files, todo: seq<Run>, i: nat, measure: Run -> seq<Metric>, left: nat)
    requires i < |todo|
    ensures var id, metrics := RunId(todo[i]), measure(todo[i]);
            Attempts(f, todo[i..], measure, left)
            == if left < Cost(f, id, metrics) then Progress(Attempt(f, id, metrics, left), 0, false)
               else var rest := Attempts(Attempt(f, id, metrics, left), todo[i + 1..], measure, left - Cost(f, id, metrics));
                    Progress(rest.files, rest.ran + 1, rest.alive)
  {
    assert todo[i..][0] == todo[i] && todo[i..][1..] == todo[i + 1..];
    hide Attempt, Cost, RunId;
  }

  /** `i` runs of the list are done, with `left` writes to go. */
  ghost predicate Through(f: Files, g: Files, todo: seq<Run>, measure: Run -> seq<Metric>, budget: nat, i: nat, left: nat) {
    && i <= |todo| && g.manifest == f.manifest + ListIds(todo[..i])
    && var rest := Attempts(g, todo[i..], measure, left);
       Attempts(f, todo, measure, budget) == Progress(rest.files, i + rest.ran, rest.alive)
  }

  lemma ThroughNone(f: Files, todo: seq<Run>, measure: Run -> seq<Metric>, budget: nat)
    ensures Through(f, f, todo, measure, budget, 0, budget)
  {
    assert todo[0..] == todo && todo[..0] == [];
    hide Attempts;
  }

  lemma ThroughAll(f: Files, g: Files, todo: seq<Run>, measure: Run -> seq<Metric>, budget: nat, left: nat)
    requires Through(f, g, todo, measure, budget, |todo|, left)
    ensures Attempts(f, todo, measure, budget) == Progress(g, |todo|, true)
    ensures g.manifest == f.manifest + ListIds(todo[..|todo|])
  {}

  lemma ThroughFresh(f: Files, g: Files, todo: seq<Run>, measure: Run -> seq<Metric>, budget: nat, i: nat, left: nat)
    requires Through(f, g, todo, measure, budget, i, left) && i < |todo| && DistinctIds(todo)
    requires forall k :: 0 <= k < |todo| ==> RunId(todo[k]) !in f.manifest
    ensures RunId(todo[i]) !in g.manifest
  {
    NotListedYet(todo, i);
    hide Attempts;
  }

  lemma ThroughKilled(f: Files, g: Files, todo: seq<Run>, measure: Run -> seq<Metric>, budget: nat, i: nat, left: nat)
    requires Through(f, g, todo, measure, budget, i, left) && i < |todo|
    requires left < Cost(g, RunId(todo[i]), measure(todo[i]))
    ensures var h := Attempt(g, RunId(todo[i]), measure(todo[i]), left);
            Attempts(f, todo, measure, budget) == Progress(h, i, false) && h.manifest == f.manifest + ListIds(todo[..i])
  {
    AttemptsFrom(g, todo, i, measure, left);
    hide Attempts, RunId, ListIds;
    AttemptRows(g, RunId(todo[i]), measure(todo[i]), left, RunId(todo[i]));
    hide Attempt;
  }

  lemma ThroughOne(f: Files, g: Files, todo: seq<Run>, measure: Run -> seq<Metric>, budget: nat, i: nat, left: nat)
    requires Through(f, g, todo, measure, budget, i, left) && i < |todo|
    requires left >= Cost(g, RunId(todo[i]), measure(todo[i]))
    ensures var id, metrics := RunId(todo[i]), measure(todo[i]);
            Through(f, Attempt(g, id, metrics, left), todo, measure, budget, i + 1, left - Cost(g, id, metrics))
  {
    AttemptsFrom(g, todo, i, measure, left);
    Listing(todo);
    hide Attempts, RunId, ListIds;
    AttemptRows(g, RunId(todo[i]), measure(todo[i]), left, RunId(todo[i]));
    hide Attempt, Cost;
  }

  class ResultsDir {
    var raw: seq<Row>
    var manifest: seq<string>
    ghost var finished: map<string, seq<Metric>>

    ghost function Now(): Files reads this { Files(raw, manifest) }
    ghost predicate Valid() reads this { Consistent(Now(), finished) }

    constructor ()
      ensures Now() == Files([], []) && Valid()
    {
      raw, manifest, finished := [], [], map[];
    }

    method LoadCompleted() returns (done: set<string>)
      ensures forall id :: id in done <==> id in manifest
    {
      done := {};
      for i := 0 to |manifest|
        invariant forall id :: id in done <==> id in manifest[..i]
      {
        done := done + {manifest[i]};
      }
      assert manifest[..|manifest|] == manifest;
    }

    /** The rows that stay when a run's rows are dropped. */
    method Kept(id: string) returns (kept: seq<Row>)
      ensures kept == Without(raw, id)
      ensures |kept| == |raw| ==> kept == raw
    {
      kept := [];
      for i := 0 to |raw|
        invariant kept == Without(raw[..i], id)
        invariant |kept| <= i && (|kept| == i ==> kept == raw[..i])
      {
        assert raw[..i + 1][..i] == raw[..i];
        if raw[i].runId != id { kept := kept + [raw[i]]; }
      }
      assert raw[..|raw|] == raw;
    }

    /** Persist one run, the process being killed after `budget` writes. */
    method PersistRun(id: string, metrics: seq<Metric>, budget: nat) returns (left: nat, alive: bool)
      modifies this
      ensures Now() == Attempt(old(Now()), id, metrics, budget)
      ensures finished == Finished(old(Now()), old(finished), id, metrics, budget)
      ensures alive <==> budget >= Cost(old(Now()), id, metrics)
      ensures alive ==> left == budget - Cost(old(Now()), id, metrics)
      ensures old(Valid()) && id !in old(manifest) ==> Valid()
    {
      ghost var f, fin := Now(), finished;
      if Consistent(f, fin) && id !in manifest { AttemptKeepsConsistent(f, fin, id, metrics, budget); }
      AttemptCases(f, fin, id, metrics, budget);
      RowsForAt(id, metrics);
      hide Consistent, Without, RowsOf, RowsFor, Attempt, Cost, Finished;
      ghost var rows := RowsFor(id, metrics);
      left := budget;
      var kept := Kept(id);
      if |kept| != |raw| {
        if left == 0 { return left, false; }
        raw, left := kept, left - 1;
      }
      ghost var start := left;
      for i := 0 to |metrics|
        invariant left == start - i && start >= i
        invariant raw == kept + rows[..i]
        invariant manifest == f.manifest && finished == fin
      {
        if left == 0 { return left, false; }
        OneMoreRow(kept, rows, i);
        raw := raw + [Row(id, metrics[i])];
        left := left - 1;
      }
      assert rows[..|metrics|] == rows;
      if left == 0 { return left, false; }
      manifest, left := manifest + [id], left - 1;
      finished := finished[id := metrics];
      alive := true;
    }

    /** Run a to-do list in order until it is done or the process is killed. */
    method RunAll(todo: seq<Run>, measure: Run -> seq<Metric>, budget: nat) returns (ran: nat, alive: bool)
      requires Valid() && DistinctIds(todo)
      requires forall i :: 0 <= i < |todo| ==> RunId(todo[i]) !in manifest
      modifies this
      ensures Valid() && Progress(Now(), ran, alive) == Attempts(old(Now()), todo, measure, budget)
      ensures manifest == old(manifest) + ListIds(todo[..ran])
    {
      ran, alive := 0, true;
      var left := budget;
      ghost var f := Now();
      ThroughNone(f, todo, measure, budget);
      for i := 0 to |todo|
        invariant Valid() && alive && ran == i && Through(f, Now(), todo, measure, budget, i, left)
      {
        ghost var g := Now();
        ThroughFresh(f, g, todo, measure, budget, i, left);
        hide *;
        ghost var before := left;
        left, alive := PersistRun(RunId(todo[i]), measure(todo[i]), left);
        if !alive {
          ThroughKilled(f, g, todo, measure, budget, i, before);
          return ran, false;
        }
        ThroughOne(f, g, todo, measure, budget, i, before);
        ran := ran + 1;
      }
      ThroughAll(f, Now(), todo, measure, budget, left);
    }

    /** Run what is left of a profile, at most `maxRuns` of it, measuring each attempt with `measure`. */
    method RunProfile(profile: seq<Run>, configs: Option<set<string>>, maxRuns: Option<int>,
                      measure: Run -> seq<Metric>, budget: nat) returns (ran: nat, alive: bool)
      requires Valid() && DistinctIds(profile)
      modifies this
      ensures Valid()
      ensures var todo := Todo(profile, Ids(old(manifest)), configs, maxRuns);
              && Progress(Now(), ran, alive) == Attempts(old(Now()), todo, measure, budget)
              && manifest == old(manifest) + ListIds(todo[..ran])
              && (alive ==> ran == |todo|)
    {
      var done := LoadCompleted();
      assert done == Ids(manifest);
      var all := Remaining(profile, done, configs);
      RemainingDistinct(profile, done, configs);
      var todo := if maxRuns.Some? then all[..Cut(|all|, maxRuns.value)] else all;
      forall i | 0 <= i < |todo| ensures RunId(todo[i]) !in manifest {
        assert todo[i] in all;
      }
      ran, alive := RunAll(todo, measure, budget);
    }
  }

  /** How many elements `[:k]` keeps of `n`: a negative bound counts from the end. */
  function Cut(n: nat, k: int): (m: nat)
    ensures m <= n
  {
    if k >= n then n else if k >= 0 then k else if n + k >= 0 then n + k else 0
  }

  /** What a call sets out to do: the first `maxRuns` of what remains. */
  function Todo(profile: seq<Run>, done: set<string>, configs: Option<set<string>>, maxRuns: Option<int>): (todo: seq<Run>)
    ensures maxRuns.None? ==> todo == Remaining(profile, done, configs)
    ensures maxRuns.Some? && maxRuns.value >= 0 ==> |todo| <= maxRuns.value
    ensures todo <= Remaining(profile, done, configs)
  {
    var all := Remaining(profile, done, configs);
    if maxRuns.Some? then all[..Cut(|all|, maxRuns.value)] else all
  }

  /** The slice is the whole remainder without a limit, its first `k` for a limit of `k`, and all but the last `k` for
      minus `k`. */
  lemma TodoIs(profile: seq<Run>, done: set<string>, configs: Option<set<string>>, maxRuns: Option<int>)
    ensures var all, todo := Remaining(profile, done, configs), Todo(profile, done, configs, maxRuns);
            && todo <= all
            && (maxRuns.None? ==> |todo| == |all|)
            && (maxRuns.Some? && maxRuns.value >= 0 ==> |todo| == if maxRuns.value < |all| then maxRuns.value else |all|)
            && (maxRuns.Some? && maxRuns.value < 0 ==> |todo| == if -maxRuns.value < |all| then |all| + maxRuns.value else 0)
  {}

  function Ids(manifest: seq<string>): set<string> { set id | id in manifest }

  lemma Listing(todo: seq<Run>)
    ensures forall i :: 0 <= i < |todo| ==> ListIds(todo[..i + 1]) == ListIds(todo[..i]) + [RunId(todo[i])]
  {
    forall i | 0 <= i < |todo| ensures todo[..i + 1][..i] == todo[..i] && todo[..i + 1][i] == todo[i] {}
  }

  lemma NotListedYet(todo: seq<Run>, i: nat)
    requires DistinctIds(todo) && i < |todo|
    ensures RunId(todo[i]) !in ListIds(todo[..i])
  {
    forall k | 0 <= k < i ensures ListIds(todo[..i])[k] != RunId(todo[i]) { ListIdsAt(todo[..i], k); }
  }

  lemma {:induction false} ListIdsAt(runs: seq<Run>, k: nat)
    requires k < |runs|
    ensures ListIds(runs)[k] == RunId(runs[k])
  {
    if k < |runs| - 1 { ListIdsAt(runs[..|runs| - 1], k); }
  }

  /** A profile run to its end leaves exactly one complete copy of every wanted run. */
  lemma CompletedProfile(profile: seq<Run>, before: seq<string>, configs: Option<set<string>>, f: Files,
                         finished: map<string, seq<Metric>>, r: Run)
    requires Consistent(f, finished)
    requires f.manifest == before + ListIds(Remaining(profile, Ids(before), configs))
    requires r in profile && (configs.None? || r.config in configs.value)
    ensures RunId(r) in f.manifest && RunId(r) in finished
    ensures RowsOf(f.raw, RunId(r)) == RowsFor(RunId(r), finished[RunId(r)])
    ensures Remaining(profile, Ids(f.manifest), configs) == []
  {
    AllListed(profile, before, configs, f.manifest, r);
    if Remaining(profile, Ids(f.manifest), configs) != [] {
      var q := Remaining(profile, Ids(f.manifest), configs)[0];
      AllListed(profile, before, configs, f.manifest, q);
    }
  }

  lemma AllListed(profile: seq<Run>, before: seq<string>, configs: Option<set<string>>, manifest: seq<string>, r: Run)
    requires manifest == before + ListIds(Remaining(profile, Ids(before), configs))
    requires r in profile && (configs.None? || r.config in configs.value)
    ensures RunId(r) in manifest && !Wanted(r, Ids(manifest), configs)
  {
    var todo := Remaining(profile, Ids(before), configs);
    if RunId(r) !in before {
      assert Wanted(r, Ids(before), configs) && r in todo;
      var k :| 0 <= k < |todo| && todo[k] == r;
      ListIdsAt(todo, k);
    }
  }

  function ListIds(runs: seq<Run>): (ids: seq<string>)
    ensures |ids| == |runs|
  {
    if runs == [] then [] else ListIds(runs[..|runs| - 1]) + [RunId(runs[|runs| - 1])]
  }
}
