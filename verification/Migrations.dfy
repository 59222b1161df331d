/** Forward-only migrations: several `apply` calls, each killable anywhere, share one database. */
module Migrations {
  import opened Tally

  type Pid = nat

  datatype Migration = Migration(version: nat, name: string, sql: string)

  /** The content hash and the no-transaction marker test, for any file content. */
  datatype Config = Config(procs: set<Pid>, checksum: string -> int, transactional: string -> bool)

  /** One row of the tracking table. `atomic`, how it was applied, is kept for the proofs only. */
  datatype Record = Record(checksum: int, atomic: bool)

  /** One execution of a migration's SQL that took effect. */
  datatype Effect = Effect(version: nat, checksum: int, atomic: bool)

  // --- Discovery --------------------------------------------------------------------------------

  datatype File = File(name: string, text: string)

  datatype Discovered = Found(migrations: seq<Migration>) | BadName(name: string) | Duplicate(version: nat)

  predicate IsDigit(ch: char) { '0' <= ch <= '9' }
  predicate IsNameChar(ch: char) { 'a' <= ch <= 'z' || IsDigit(ch) || ch == '_' }

  /** `NNN_lower_snake.sql`. */
  predicate WellNamed(f: string) {
    && |f| > 8 && IsDigit(f[0]) && IsDigit(f[1]) && IsDigit(f[2]) && f[3] == '_'
    && f[|f| - 4..] == ".sql"
    && forall i :: 4 <= i < |f| - 4 ==> IsNameChar(f[i])
  }

  function DigitValue(ch: char): nat
    requires IsDigit(ch)
  {
    ch as nat - '0' as nat
  }

  function Parse(f: File): Migration
    requires WellNamed(f.name)
  {
    Migration(100 * DigitValue(f.name[0]) + 10 * DigitValue(f.name[1]) + DigitValue(f.name[2]),
              f.name[4..|f.name| - 4], f.text)
  }

  const DIGITS := {'0', '1', '2', '3', '4', '5', '6', '7', '8', '9'}
  const LETTERS := {'a', 'b', 'c', 'd', 'e', 'f', 'g', 'h', 'i', 'j', 'k', 'l', 'm',
                    'n', 'o', 'p', 'q', 'r', 's', 't', 'u', 'v', 'w', 'x', 'y', 'z'}

  lemma NameChars(ch: char)
    ensures IsDigit(ch) <==> ch in DIGITS
    ensures IsNameChar(ch) <==> ch in LETTERS || ch in DIGITS || ch == '_'
  {}

  /** Three digits, an underscore, a word of lower-case letters, digits and underscores, and `.sql`. */
  ghost predicate Spells(f: string, digits: string, word: string) {
    && |digits| == 3 && word != "" && f == digits + "_" + word + ".sql"
    && (forall ch :: ch in digits ==> ch in DIGITS)
    && (forall ch :: ch in word ==> ch in LETTERS || ch in DIGITS || ch == '_')
  }

  /** That is exactly what a well-named file is called. */
  lemma WellNamedIff(f: string)
    ensures WellNamed(f) <==> exists digits: string, word: string :: Spells(f, digits, word)
  {
    if WellNamed(f) { SpeltOut(f); }
    forall digits: string, word: string | Spells(f, digits, word) ensures WellNamed(f) { SpeltRight(f, digits, word); }
  }

  lemma SpeltOut(f: string)
    requires WellNamed(f)
    ensures Spells(f, f[..3], f[4..|f| - 4])
  {
    var digits, word := f[..3], f[4..|f| - 4];
    assert f == digits + "_" + word + ".sql";
    forall ch | ch in digits ensures ch in DIGITS {
      NameChars(ch);
      var i :| 0 <= i < 3 && digits[i] == ch;
    }
    forall ch | ch in word ensures ch in LETTERS || ch in DIGITS || ch == '_' {
      NameChars(ch);
      var i :| 0 <= i < |word| && word[i] == ch;
      assert f[i + 4] == ch;
    }
  }

  lemma SpeltRight(f: string, digits: string, word: string)
    requires Spells(f, digits, word)
    ensures WellNamed(f)
  {
    assert f[|f| - 4..] == ".sql" && f[3] == '_';
    forall i | 0 <= i < 3 ensures IsDigit(f[i]) {
      assert f[i] == digits[i] && digits[i] in digits;
      NameChars(f[i]);
    }
    forall i | 4 <= i < |f| - 4 ensures IsNameChar(f[i]) {
      assert f[i] == word[i - 4] && word[i - 4] in word;
      NameChars(f[i]);
    }
  }

  /** The version is the number the three digits spell, so versions are ordered as the file names' prefixes are. */
  lemma VersionsSortLikeNames(f: File, g: File)
    requires WellNamed(f.name) && WellNamed(g.name)
    ensures Parse(f).version < Parse(g).version
            <==> f.name[0] < g.name[0]
                 || (f.name[0] == g.name[0] && (f.name[1] < g.name[1] || (f.name[1] == g.name[1] && f.name[2] < g.name[2])))
    ensures Parse(f).version == Parse(g).version <==> f.name[..3] == g.name[..3]
    ensures Parse(f).sql == f.text && f.name == f.name[..3] + "_" + Parse(f).name + ".sql"
  {
    assert f.name[..3] == g.name[..3] <==> f.name[0] == g.name[0] && f.name[1] == g.name[1] && f.name[2] == g.name[2] by {
      assert f.name[..3] == [f.name[0], f.name[1], f.name[2]] && g.name[..3] == [g.name[0], g.name[1], g.name[2]];
    }
    assert f.name == f.name[..3] + [f.name[3]] + f.name[4..|f.name| - 4] + f.name[|f.name| - 4..];
  }

  predicate Ascending(ms: seq<Migration>) {
    forall i, j :: 0 <= i < j < |ms| ==> ms[i].version < ms[j].version
  }

  predicate Clash(files: seq<File>, i: nat, j: nat) {
    && i < j < |files| && WellNamed(files[i].name) && WellNamed(files[j].name)
    && Parse(files[i]).version == Parse(files[j]).version
  }

  ghost predicate Trusted(files: seq<File>) {
    && (forall i :: 0 <= i < |files| ==> WellNamed(files[i].name))
    && (forall i: nat, j: nat :: !Clash(files, i, j))
  }

  ghost predicate Lists(files: seq<File>, m: Migration, i: nat) {
    i < |files| && WellNamed(files[i].name) && Parse(files[i]) == m
  }

  /** Read the directory listing into an ordered migration list, refusing the first file that is badly
      named or repeats a version. */
  method Discover(files: seq<File>) returns (r: Discovered)
    ensures r.Found? <==> Trusted(files)
    ensures r.Found? ==> Ascending(r.migrations) && forall m :: m in r.migrations <==> exists i: nat :: Lists(files, m, i)
    ensures r.BadName? ==> exists i :: 0 <= i < |files| && files[i].name == r.name && !WellNamed(r.name)
    ensures r.Duplicate? ==> exists i: nat, j: nat :: Clash(files, i, j) && Parse(files[j]).version == r.version
  {
    var found: map<nat, Migration> := map[];
    for k := 0 to |files|
      invariant forall i :: 0 <= i < k ==> WellNamed(files[i].name)
      invariant forall i: nat, j: nat :: j < k ==> !Clash(files, i, j)
      invariant forall v :: v in found ==> found[v].version == v
      invariant forall m: Migration :: (m.version in found && found[m.version] == m) <==> exists i: nat :: i < k && Lists(files, m, i)
    {
      if !WellNamed(files[k].name) { return BadName(files[k].name); }
      var m := Parse(files[k]);
      if m.version in found {
        ghost var i: nat :| i < k && Lists(files, found[m.version], i);
        assert Clash(files, i, k);
        return Duplicate(m.version);
      }
      forall i: nat | i < k ensures !Clash(files, i, k) {
        assert Lists(files, Parse(files[i]), i);
      }
      assert Lists(files, m, k);
      found := found[m.version := m];
    }
    var ordered := InVersionOrder(found);
    r := Found(ordered);
  }

  method InVersionOrder(found: map<nat, Migration>) returns (r: seq<Migration>)
    requires forall v :: v in found ==> found[v].version == v
    ensures Ascending(r)
    ensures forall m :: m in r <==> m.version in found && found[m.version] == m
  {
    r := [];
    var todo := found.Keys;
    while todo != {}
      invariant todo <= found.Keys && Ascending(r)
      invariant forall m :: m in r <==> m.version in found && m.version !in todo && found[m.version] == m
      decreases todo
    {
      var v :| v in todo;
      todo := todo - {v};
      r := InsertMigration(r, found[v]);
    }
  }

  method InsertMigration(sorted: seq<Migration>, m: Migration) returns (r: seq<Migration>)
    requires Ascending(sorted) && forall x :: x in sorted ==> x.version != m.version
    ensures Ascending(r) && forall x :: x in r <==> x == m || x in sorted
  {
    var k := 0;
    while k < |sorted| && sorted[k].version < m.version
      invariant 0 <= k <= |sorted| && forall i :: 0 <= i < k ==> sorted[i].version < m.version
    {
      k := k + 1;
    }
    InsertedAt(sorted, k, m);
    r := sorted[..k] + [m] + sorted[k..];
  }

  lemma InsertedAt(sorted: seq<Migration>, k: nat, m: Migration)
    requires Ascending(sorted) && (forall x :: x in sorted ==> x.version != m.version) && k <= |sorted|
    requires forall i :: 0 <= i < k ==> sorted[i].version < m.version
    requires k < |sorted| ==> sorted[k].version >= m.version
    ensures var r := sorted[..k] + [m] + sorted[k..];
            Ascending(r) && forall x :: x in r <==> x == m || x in sorted
  {
    assert sorted == sorted[..k] + sorted[k..];
    assert k < |sorted| ==> sorted[k] in sorted;
  }

  // --- The protocol -----------------------------------------------------------------------------

  /** Where one `apply` call is; every phase but `Idle` holds the session lock. */
  datatype Phase =
    | Idle
    | Opened(dir: seq<Migration>)
    | Read(dir: seq<Migration>, applied: map<nat, Record>)
    | Applying(dir: seq<Migration>, applied: map<nat, Record>, next: nat, done: set<nat>)
    | SqlDone(dir: seq<Migration>, applied: map<nat, Record>, next: nat, done: set<nat>)

  datatype State = State(recorded: map<nat, Record>, log: seq<Effect>, holder: int, procs: map<Pid, Phase>, conflicts: nat)

  const NOBODY := -1

  datatype Event =
    | Open(p: Pid, dir: seq<Migration>)   // lock the whole run, after discovering the directory
    | ReadApplied(p: Pid)
    | VerifyDrift(p: Pid)
    | Skip(p: Pid)                        // already recorded when this call read the table
    | RunAtomic(p: Pid, ok: bool)         // SQL and version row in one transaction
    | RunSql(p: Pid, ok: bool)            // SQL outside a transaction ...
    | RecordVersion(p: Pid)               // ... and its version row afterwards
    | Finish(p: Pid)
    | Crash(p: Pid)

  predicate NoDrift(c: Config, dir: seq<Migration>, recorded: map<nat, Record>) {
    forall m :: m in dir && m.version in recorded ==> recorded[m.version].checksum == c.checksum(m.sql)
  }

  predicate Enabled(c: Config, s: State, e: Event)
    requires s.procs.Keys == c.procs
  {
    && e.p in c.procs
    && var ph := s.procs[e.p];
       match e
       case Open(_, dir) => ph.Idle? && s.holder == NOBODY && Ascending(dir)
       case ReadApplied(_) => ph.Opened?
       case VerifyDrift(_) => ph.Read?
       case Skip(_) => ph.Applying? && ph.next < |ph.dir| && ph.dir[ph.next].version in ph.applied
       case RunAtomic(_, _) => Due(ph) && c.transactional(ph.dir[ph.next].sql)
       case RunSql(_, _) => Due(ph) && !c.transactional(ph.dir[ph.next].sql)
       case RecordVersion(_) => ph.SqlDone? && ph.next < |ph.dir|
       case Finish(_) => ph.Applying? && ph.next == |ph.dir|
       case Crash(_) => true
  }

  /** The next file in line was not recorded when this call read the table. */
  predicate Due(ph: Phase) {
    ph.Applying? && ph.next < |ph.dir| && ph.dir[ph.next].version !in ph.applied
  }

  function Recording(c: Config, m: Migration): Record { Record(c.checksum(m.sql), c.transactional(m.sql)) }
  function Effecting(c: Config, m: Migration): Effect { Effect(m.version, c.checksum(m.sql), c.transactional(m.sql)) }

  function Leave(s: State, p: Pid): State
    requires p in s.procs
  {
    s.(procs := s.procs[p := Idle], holder := if s.procs[p].Idle? then s.holder else NOBODY)
  }

  /** Insert the version row; the primary key refuses a second one and ends the call. */
  function Insert(c: Config, s: State, p: Pid, m: Migration, log: seq<Effect>, ph: Phase): State
    requires p in s.procs
  {
    if m.version in s.recorded then Leave(s, p).(conflicts := s.conflicts + 1)
    else s.(procs := s.procs[p := ph], recorded := s.recorded[m.version := Recording(c, m)], log := log)
  }

  function Step(c: Config, s: State, e: Event): (s': State)
    requires s.procs.Keys == c.procs && Enabled(c, s, e)
    ensures s'.procs.Keys == c.procs
  {
    var p := e.p;
    var ph := s.procs[p];
    match e
    case Open(_, dir) => s.(procs := s.procs[p := Opened(dir)], holder := p)
    case ReadApplied(_) => s.(procs := s.procs[p := Read(ph.dir, s.recorded)])
    case VerifyDrift(_) =>
      if NoDrift(c, ph.dir, ph.applied) then s.(procs := s.procs[p := Applying(ph.dir, ph.applied, 0, {})])
      else Leave(s, p)
    case Skip(_) => s.(procs := s.procs[p := Applying(ph.dir, ph.applied, ph.next + 1, ph.done)])
    case RunAtomic(_, ok) =>
      var m := ph.dir[ph.next];
      if !ok then Leave(s, p)
      else Insert(c, s, p, m, s.log + [Effecting(c, m)], Applying(ph.dir, ph.applied, ph.next + 1, ph.done + {m.version}))
    case RunSql(_, ok) =>
      if !ok then Leave(s, p)
      else s.(procs := s.procs[p := SqlDone(ph.dir, ph.applied, ph.next, ph.done)],
              log := s.log + [Effecting(c, ph.dir[ph.next])])
    case RecordVersion(_) =>
      var m := ph.dir[ph.next];
      Insert(c, s, p, m, s.log, Applying(ph.dir, ph.applied, ph.next + 1, ph.done + {m.version}))
    case Finish(_) => Leave(s, p)
    case Crash(_) => Leave(s, p)
  }

  function Run(c: Config, es: seq<Event>): (s: State)
    ensures s.procs.Keys == c.procs
  {
    if es == [] then State(map[], [], NOBODY, map p | p in c.procs :: Idle, 0)
    else
      var s := Run(c, es[..|es| - 1]);
      if Enabled(c, s, es[|es| - 1]) then Step(c, s, es[|es| - 1]) else s
  }

  // --- Invariants -------------------------------------------------------------------------------

  ghost predicate Exclusive(c: Config, s: State)
    requires s.procs.Keys == c.procs
  {
    forall p :: p in c.procs ==> (!s.procs[p].Idle? <==> s.holder == p)
  }

  /** The table holds what was read plus what was recorded since, covering all files before `next`. */
  ghost predicate Knows(c: Config, dir: seq<Migration>, applied: set<nat>, next: nat, done: set<nat>, recorded: map<nat, Record>) {
    && next <= |dir| && recorded.Keys == applied + done
    && (forall v :: v in done ==> exists i :: 0 <= i < next && dir[i].version == v)
    && (forall i :: 0 <= i < next ==> dir[i].version in recorded)
  }

  /** What the lock holder read stays true: the table is what it read plus what it recorded itself. */
  ghost predicate Current(c: Config, s: State, p: Pid)
    requires s.procs.Keys == c.procs && p in c.procs
  {
    var ph := s.procs[p];
    && (!ph.Idle? ==> Ascending(ph.dir))
    && (ph.Read? ==> ph.applied == s.recorded)
    && (ph.Applying? || ph.SqlDone? ==>
          Knows(c, ph.dir, ph.applied.Keys, ph.next, ph.done, s.recorded) && NoDrift(c, ph.dir, s.recorded))
    && (ph.SqlDone? ==> ph.next < |ph.dir| && ph.dir[ph.next].version !in ph.applied
                        && !c.transactional(ph.dir[ph.next].sql)
                        && Effecting(c, ph.dir[ph.next]) in s.log)
  }

  function AtomicRuns(v: nat): Effect -> bool { (x: Effect) => x.version == v && x.atomic }

  /** A version applied in a transaction has had its SQL take effect once, with the content that was
      recorded; one applied outside has run at least once with that content; an unrecorded version has
      no transactional effect at all. */
  ghost predicate Accounted(s: State, v: nat) {
    if v !in s.recorded then Count(s.log, AtomicRuns(v)) == 0
    else if s.recorded[v].atomic then
      Count(s.log, AtomicRuns(v)) == 1 && Effect(v, s.recorded[v].checksum, true) in s.log
    else Count(s.log, AtomicRuns(v)) == 0 && Effect(v, s.recorded[v].checksum, false) in s.log
  }

  ghost predicate Inv(c: Config, s: State)
    requires s.procs.Keys == c.procs
  {
    && Exclusive(c, s) && s.conflicts == 0
    && (forall p :: p in c.procs ==> Current(c, s, p))
    && (forall v :: Accounted(s, v))
  }

  /** A due migration is really unrecorded, so the primary key never refuses it. */
  lemma DueIsUnrecorded(c: Config, s: State, p: Pid)
    requires s.procs.Keys == c.procs && p in c.procs && Current(c, s, p)
    requires Due(s.procs[p]) || s.procs[p].SqlDone?
    ensures s.procs[p].dir[s.procs[p].next].version !in s.recorded
  {
    var ph := s.procs[p];
    forall i | 0 <= i < ph.next ensures ph.dir[i].version != ph.dir[ph.next].version {}
  }

  lemma OthersAreIdle(c: Config, s: State, p: Pid, q: Pid)
    requires s.procs.Keys == c.procs && Exclusive(c, s) && p in c.procs && q in c.procs && p != q
    requires !s.procs[p].Idle? || s.holder == NOBODY
    ensures s.procs[q].Idle?
  {}

  /** Recording the next migration keeps what the holder knows current. */
  lemma RecordingStaysKnown(c: Config, dir: seq<Migration>, applied: set<nat>, next: nat, done: set<nat>, recorded: map<nat, Record>)
    requires Ascending(dir) && next < |dir| && dir[next].version !in recorded
    requires Knows(c, dir, applied, next, done, recorded) && NoDrift(c, dir, recorded)
    ensures var m := dir[next];
            var recorded' := recorded[m.version := Recording(c, m)];
            Knows(c, dir, applied, next + 1, done + {m.version}, recorded') && NoDrift(c, dir, recorded')
  {
    hide NoDrift, Ascending;
    RecordingDoesNotDrift(c, dir, next, recorded);
    forall v | v in done + {dir[next].version} ensures exists i :: 0 <= i < next + 1 && dir[i].version == v {
      if v != dir[next].version {
        var i :| 0 <= i < next && dir[i].version == v;
        assert 0 <= i < next + 1 && dir[i].version == v;
      } else {
        assert 0 <= next < next + 1 && dir[next].version == v;
      }
    }
  }

  lemma RecordingDoesNotDrift(c: Config, dir: seq<Migration>, next: nat, recorded: map<nat, Record>)
    requires Ascending(dir) && next < |dir| && NoDrift(c, dir, recorded)
    ensures NoDrift(c, dir, recorded[dir[next].version := Recording(c, dir[next])])
  {
    var m := dir[next];
    var recorded' := recorded[m.version := Recording(c, m)];
    forall x | x in dir && x.version in recorded' ensures recorded'[x.version].checksum == c.checksum(x.sql) {
      var i :| 0 <= i < |dir| && dir[i] == x;
      assert x.version == m.version ==> i == next;
    }
  }

  lemma OwnStep(c: Config, s: State, e: Event)
    requires s.procs.Keys == c.procs && Enabled(c, s, e) && Current(c, s, e.p)
    ensures Current(c, Step(c, s, e), e.p)
    ensures Step(c, s, e).conflicts == s.conflicts
  {
    var ph := s.procs[e.p];
    if Due(ph) || ph.SqlDone? {
      DueIsUnrecorded(c, s, e.p);
      RecordingStaysKnown(c, ph.dir, ph.applied.Keys, ph.next, ph.done, s.recorded);
    }
  }

  /** What a step does to the log and the table: nothing, or the next migration's part of its work. */
  ghost predicate WorkDelta(c: Config, s: State, s': State, m: Migration) {
    || (s'.log == s.log && s'.recorded == s.recorded)
    || (m.version !in s.recorded
        && c.transactional(m.sql)
        && s'.log == s.log + [Effecting(c, m)] && s'.recorded == s.recorded[m.version := Recording(c, m)])
    || (!c.transactional(m.sql) && s'.log == s.log + [Effecting(c, m)] && s'.recorded == s.recorded)
    || (m.version !in s.recorded && !c.transactional(m.sql) && Effecting(c, m) in s.log
        && s'.log == s.log && s'.recorded == s.recorded[m.version := Recording(c, m)])
  }

  lemma StepWorks(c: Config, s: State, e: Event, m: Migration)
    requires s.procs.Keys == c.procs && Enabled(c, s, e) && Current(c, s, e.p)
    requires var ph := s.procs[e.p]; Due(ph) || ph.SqlDone? ==> m == ph.dir[ph.next] && m.version !in s.recorded
    ensures WorkDelta(c, s, Step(c, s, e), m)
  {}

  lemma WorkAccounts(c: Config, s: State, s': State, m: Migration, v: nat)
    requires Accounted(s, v) && WorkDelta(c, s, s', m)
    ensures Accounted(s', v)
  {
    CountAppend(s.log, Effecting(c, m), AtomicRuns(v));
  }

  lemma StepAccounts(c: Config, s: State, e: Event, v: nat)
    requires s.procs.Keys == c.procs && Enabled(c, s, e) && Current(c, s, e.p) && Accounted(s, v)
    ensures Accounted(Step(c, s, e), v)
  {
    var ph := s.procs[e.p];
    if Due(ph) || ph.SqlDone? {
      DueIsUnrecorded(c, s, e.p);
      StepWorks(c, s, e, ph.dir[ph.next]);
      WorkAccounts(c, s, Step(c, s, e), ph.dir[ph.next], v);
    }
  }

  lemma StepKeepsInv(c: Config, s: State, e: Event)
    requires s.procs.Keys == c.procs && Enabled(c, s, e) && Inv(c, s)
    ensures Inv(c, Step(c, s, e))
  {
    var s' := Step(c, s, e);
    assert Current(c, s, e.p);
    OwnStep(c, s, e);
    forall v ensures Accounted(s', v) { StepAccounts(c, s, e, v); }
    forall q | q in c.procs ensures Current(c, s', q) { if q != e.p { OtherStep(c, s, e, q); } }
    StepKeepsExclusive(c, s, e);
    hide Accounted, Current, Step, Exclusive;
  }

  /** A step of one process leaves what another knows current: either the table stays or the other is idle. */
  lemma OtherStep(c: Config, s: State, e: Event, q: Pid)
    requires s.procs.Keys == c.procs && Enabled(c, s, e) && Exclusive(c, s) && q in c.procs && q != e.p && Current(c, s, q)
    ensures Current(c, Step(c, s, e), q)
  {
    hide Knows, NoDrift, Ascending;
    if s.procs[e.p].Idle? && !e.Open? {
      assert Step(c, s, e).recorded == s.recorded && Step(c, s, e).log == s.log;
    } else {
      OthersAreIdle(c, s, e.p, q);
    }
  }

  lemma StepKeepsExclusive(c: Config, s: State, e: Event)
    requires s.procs.Keys == c.procs && Enabled(c, s, e) && Exclusive(c, s)
    ensures Exclusive(c, Step(c, s, e))
  {}

  lemma {:induction false} RunKeepsInv(c: Config, es: seq<Event>)
    ensures Inv(c, Run(c, es))
  {
    if es != [] {
      var s := Run(c, es[..|es| - 1]);
      RunKeepsInv(c, es[..|es| - 1]);
      if Enabled(c, s, es[|es| - 1]) { StepKeepsInv(c, s, es[|es| - 1]); }
    }
  }

  /** With any number of callers, crashes and directories: transactional SQL has taken effect exactly
      once when its version is recorded and not at all otherwise, non-transactional SQL at least once
      when recorded, and no caller is ever refused by the primary key. */
  lemma AppliedExactlyOnce(c: Config, es: seq<Event>, v: nat)
    ensures Accounted(Run(c, es), v) && Run(c, es).conflicts == 0
  {
    RunKeepsInv(c, es);
  }

  /** SQL only takes effect in a call whose directory agrees with everything recorded: a call that
      finds an edited file leaves without having run any. */
  lemma NoSqlAfterDrift(c: Config, es: seq<Event>, e: Event)
    requires Enabled(c, Run(c, es), e)
    ensures Step(c, Run(c, es), e).log != Run(c, es).log ==> NoDrift(c, Run(c, es).procs[e.p].dir, Run(c, es).recorded)
    ensures e.VerifyDrift? && !NoDrift(c, Run(c, es).procs[e.p].dir, Run(c, es).recorded) ==>
              Step(c, Run(c, es), e).procs[e.p].Idle? && Step(c, Run(c, es), e).log == Run(c, es).log
  {
    RunKeepsInv(c, es);
    assert Current(c, Run(c, es), e.p);
  }

  /** A call that reaches its end leaves every file of its directory recorded, unedited. */
  lemma FinishedCallIsComplete(c: Config, es: seq<Event>, p: Pid)
    requires Enabled(c, Run(c, es), Finish(p))
    ensures var s := Run(c, es);
            forall m :: m in s.procs[p].dir ==> m.version in s.recorded && s.recorded[m.version].checksum == c.checksum(m.sql)
  {
    RunKeepsInv(c, es);
    assert Current(c, Run(c, es), p);
  }

  // --- Prefixes ---------------------------------------------------------------------------------

  function Versions(ms: seq<Migration>): set<nat> { set m | m in ms :: m.version }

  /** Every caller sees some initial part of one history: new files only get higher versions. */
  ghost predicate OnlyAppended(master: seq<Migration>, es: seq<Event>) {
    Ascending(master) && forall e :: e in es && e.Open? ==> e.dir <= master
  }

  ghost predicate PrefixInv(c: Config, s: State, master: seq<Migration>, n: nat)
    requires s.procs.Keys == c.procs
  {
    && n <= |master| && s.recorded.Keys == Versions(master[..n])
    && forall p :: p in c.procs && !s.procs[p].Idle? ==> s.procs[p].dir <= master
  }

  lemma InPrefix(master: seq<Migration>, n: nat, i: nat)
    requires Ascending(master) && n <= |master| && i < |master|
    ensures master[i].version in Versions(master[..n]) <==> i < n
  {
    if i < n {
      assert master[i] in master[..n];
    } else {
      forall m | m in master[..n] ensures m.version != master[i].version {
        var k :| 0 <= k < n && master[k] == m;
      }
    }
  }

  /** The holder's next unrecorded file is the first unrecorded file of the whole history. */
  lemma NextIsFirstUnrecorded(c: Config, s: State, p: Pid, master: seq<Migration>, n: nat)
    requires s.procs.Keys == c.procs && p in c.procs && Current(c, s, p) && Ascending(master)
    requires Due(s.procs[p]) || s.procs[p].SqlDone?
    requires PrefixInv(c, s, master, n)
    ensures n == s.procs[p].next && n < |master| && master[n] == s.procs[p].dir[n]
  {
    var ph := s.procs[p];
    var k := ph.next;
    DueIsUnrecorded(c, s, p);
    assert ph.dir[k] == master[k];
    InPrefix(master, n, k);
    if k > 0 {
      assert ph.dir[k - 1] == master[k - 1];
      InPrefix(master, n, k - 1);
    }
  }

  lemma DirectoriesStay(c: Config, s: State, e: Event, q: Pid)
    requires s.procs.Keys == c.procs && Enabled(c, s, e) && q in c.procs && !Step(c, s, e).procs[q].Idle?
    ensures || (e.Open? && q == e.p && Step(c, s, e).procs[q].dir == e.dir)
            || (!s.procs[q].Idle? && Step(c, s, e).procs[q].dir == s.procs[q].dir)
  {}

  lemma RecordedStep(c: Config, s: State, e: Event)
    requires s.procs.Keys == c.procs && Enabled(c, s, e)
    ensures Step(c, s, e).recorded == s.recorded
            || var ph := s.procs[e.p];
               && (Due(ph) || ph.SqlDone?) && ph.next < |ph.dir|
               && Step(c, s, e).recorded.Keys == s.recorded.Keys + {ph.dir[ph.next].version}
  {}

  lemma StepKeepsPrefix(c: Config, s: State, e: Event, master: seq<Migration>, n: nat) returns (n': nat)
    requires s.procs.Keys == c.procs && Enabled(c, s, e) && Current(c, s, e.p) && Ascending(master)
    requires PrefixInv(c, s, master, n) && (e.Open? ==> e.dir <= master)
    ensures PrefixInv(c, Step(c, s, e), master, n')
  {
    var s', ph := Step(c, s, e), s.procs[e.p];
    n' := n;
    RecordedStep(c, s, e);
    forall q | q in c.procs && !s'.procs[q].Idle? ensures s'.procs[q].dir <= master { DirectoriesStay(c, s, e, q); }
    if s'.recorded != s.recorded {
      NextIsFirstUnrecorded(c, s, e.p, master, n);
      n' := n + 1;
      assert master[..n'] == master[..n] + [master[n]];
    }
  }

  /** If new files only get higher versions, the recorded set is always a prefix of the history, for
      any mix of old and new callers. */
  lemma {:induction false} RecordedIsAPrefix(c: Config, es: seq<Event>, master: seq<Migration>) returns (n: nat)
    requires OnlyAppended(master, es)
    ensures PrefixInv(c, Run(c, es), master, n)
  {
    if es == [] {
      n := 0;
    } else {
      var t, e := es[..|es| - 1], es[|es| - 1];
      var s := Run(c, t);
      assert e in es && forall x :: x in t ==> x in es;
      n := RecordedIsAPrefix(c, t, master);
      RunKeepsInv(c, t);
      if Enabled(c, s, e) {
        assert Current(c, s, e.p);
        n := StepKeepsPrefix(c, s, e, master, n);
      }
    }
  }

  // --- One undisturbed call ---------------------------------------------------------------------

  /** What is still to run, in file order. */
  function Pending(dir: seq<Migration>, applied: map<nat, Record>): seq<Migration> {
    if dir == [] then []
    else Pending(dir[..|dir| - 1], applied)
         + if dir[|dir| - 1].version in applied then [] else [dir[|dir| - 1]]
  }

  function Effects(c: Config, done: seq<Migration>): seq<Effect> {
    seq(|done|, i requires 0 <= i < |done| => Effecting(c, done[i]))
  }

  /** The table after recording these migrations. */
  ghost predicate Adds(c: Config, before: map<nat, Record>, done: seq<Migration>, after: map<nat, Record>) {
    && after.Keys == before.Keys + Versions(done)
    && (forall v :: v in before ==> after[v] == before[v])
    && (forall m :: m in done ==> m.version in after && after[m.version] == Recording(c, m))
  }

  lemma {:induction false} PendingIs(dir: seq<Migration>, applied: map<nat, Record>, m: Migration)
    ensures m in Pending(dir, applied) <==> m in dir && m.version !in applied
  {
    if dir != [] {
      PendingIs(dir[..|dir| - 1], applied, m);
      assert dir == dir[..|dir| - 1] + [dir[|dir| - 1]];
    }
  }

  lemma AddsOne(c: Config, before: map<nat, Record>, done: seq<Migration>, after: map<nat, Record>, m: Migration)
    requires Adds(c, before, done, after) && m.version !in after
    ensures Adds(c, before, done + [m], after[m.version := Recording(c, m)])
    ensures Effects(c, done + [m]) == Effects(c, done) + [Effecting(c, m)]
  {
    assert Versions(done + [m]) == Versions(done) + {m.version} by {
      forall v | v in Versions(done) ensures v in Versions(done + [m]) {
        var x :| x in done && x.version == v;
        assert x in done + [m];
      }
      assert m in done + [m];
    }
  }

  datatype Outcome = UpToDate | RefusedFiles | RefusedDrift(version: nat) | SqlFailed(version: nat)

  ghost predicate Listing(files: seq<File>, dir: seq<Migration>) {
    Ascending(dir) && forall m :: m in dir <==> exists i: nat :: Lists(files, m, i)
  }

  /** A call stops at drift having done nothing, at a failure having done an initial part, or at the end. */
  ghost predicate Answers(c: Config, dir: seq<Migration>, before: map<nat, Record>, ok: Migration -> bool,
                          done: seq<Migration>, r: Outcome) {
    && (r.RefusedDrift? <==> !NoDrift(c, dir, before))
    && (r.RefusedDrift? ==> exists m :: m in dir && m.version == r.version && Drifted(c, m, before))
    && (!r.RefusedDrift? ==> Progress(dir, before, ok, done, r))
  }

  /** The content of a recorded file changed. */
  predicate Drifted(c: Config, m: Migration, recorded: map<nat, Record>) {
    m.version in recorded && recorded[m.version].checksum != c.checksum(m.sql)
  }

  /** Everything pending was done, or everything up to the first file whose SQL fails. */
  ghost predicate Progress(dir: seq<Migration>, before: map<nat, Record>, ok: Migration -> bool, done: seq<Migration>, r: Outcome) {
    && done <= Pending(dir, before) && (forall m :: m in done ==> ok(m))
    && (r.UpToDate? ==> done == Pending(dir, before))
    && (r.SqlFailed? ==>
          |done| < |Pending(dir, before)|
          && Pending(dir, before)[|done|].version == r.version && !ok(Pending(dir, before)[|done|]))
  }

  class Database {
    const c: Config
    var recorded: map<nat, Record>
    var log: seq<Effect>

    constructor (c: Config)
      ensures this.c == c && recorded == map[] && log == []
    {
      this.c, recorded, log := c, map[], [];
    }

    method VerifyNoDrift(dir: seq<Migration>) returns (drifted: seq<Migration>)
      ensures drifted == [] <==> NoDrift(c, dir, recorded)
      ensures drifted != [] ==> drifted[0] in dir && Drifted(c, drifted[0], recorded)
    {
      for k := 0 to |dir|
        invariant NoDrift(c, dir[..k], recorded)
      {
        if dir[k].version in recorded && recorded[dir[k].version].checksum != c.checksum(dir[k].sql) {
          assert dir[k] in dir;
          return [dir[k]];
        }
        assert dir[..k + 1] == dir[..k] + [dir[k]];
      }
      assert dir[..|dir|] == dir;
      drifted := [];
    }

    /** Run one migration's SQL and record it; a failing file leaves nothing behind. */
    method RunOne(m: Migration, ok: bool)
      requires m.version !in recorded
      modifies this
      ensures ok ==> recorded == old(recorded)[m.version := Recording(c, m)] && log == old(log) + [Effecting(c, m)]
      ensures !ok ==> recorded == old(recorded) && log == old(log)
    {
      if ok {
        log := log + [Effecting(c, m)];
        recorded := recorded[m.version := Recording(c, m)];
      }
    }

    /** Apply what is pending in file order, stopping at the first failure; refuse a bad or edited directory outright. */
    method Apply(files: seq<File>, ok: Migration -> bool) returns (r: Outcome, done: seq<Migration>)
      modifies this
      ensures r.RefusedFiles? <==> !Trusted(files)
      ensures r.RefusedFiles? || r.RefusedDrift? ==> done == []
      ensures Adds(c, old(recorded), done, recorded) && log == old(log) + Effects(c, done)
      ensures !r.RefusedFiles? ==> exists dir :: Listing(files, dir) && Answers(c, dir, old(recorded), ok, done, r)
    {
      var found := Discover(files);
      done := [];
      assert log + [] == log;
      if !found.Found? { return RefusedFiles, []; }
      var dir := found.migrations;
      var drifted := VerifyNoDrift(dir);
      assert Listing(files, dir);
      if drifted != [] {
        r := RefusedDrift(drifted[0].version);
        assert Answers(c, dir, recorded, ok, done, r);
        return;
      }
      ghost var before := recorded;
      r, done := ApplyAll(dir, ok);
      assert Answers(c, dir, before, ok, done, r);
    }

    method ApplyAll(dir: seq<Migration>, ok: Migration -> bool) returns (r: Outcome, done: seq<Migration>)
      requires Ascending(dir)
      modifies this
      ensures r.UpToDate? || r.SqlFailed?
      ensures Adds(c, old(recorded), done, recorded) && log == old(log) + Effects(c, done)
      ensures Progress(dir, old(recorded), ok, done, r)
    {
      done := [];
      var applied := recorded;
      assert log + Effects(c, []) == log;
      NothingDone(c, dir, applied);
      hide Pending, Adds, Effects, Ascending, Progress;
      for k := 0 to |dir|
        invariant done == Pending(dir[..k], applied) && forall m :: m in done ==> ok(m)
        invariant Adds(c, applied, done, recorded) && log == old(log) + Effects(c, done)
      {
        OneMorePending(dir, applied, k);
        if dir[k].version !in applied {
          NotRecordedYet(c, dir, applied, k, done, recorded);
          if !ok(dir[k]) {
            RunOne(dir[k], false);
            StoppedAt(dir, applied, k);
            StoppedThere(dir, applied, ok, done, dir[k]);
            return SqlFailed(dir[k].version), done;
          }
          AddsOne(c, applied, done, recorded, dir[k]);
          RunOne(dir[k], true);
          done := done + [dir[k]];
        }
      }
      assert dir[..|dir|] == dir;
      AllDone(dir, applied, ok);
      r := UpToDate;
    }
  }

  lemma AllDone(dir: seq<Migration>, before: map<nat, Record>, ok: Migration -> bool)
    requires forall m :: m in Pending(dir, before) ==> ok(m)
    ensures Progress(dir, before, ok, Pending(dir, before), UpToDate)
  {}

  lemma StoppedThere(dir: seq<Migration>, before: map<nat, Record>, ok: Migration -> bool, done: seq<Migration>, m: Migration)
    requires done <= Pending(dir, before) && |done| < |Pending(dir, before)| && Pending(dir, before)[|done|] == m
    requires !ok(m) && forall x :: x in done ==> ok(x)
    ensures Progress(dir, before, ok, done, SqlFailed(m.version))
  {}

  lemma NothingDone(c: Config, dir: seq<Migration>, applied: map<nat, Record>)
    ensures Pending(dir[..0], applied) == [] && Adds(c, applied, [], applied)
  {}

  lemma {:induction false} PrefixPending(dir: seq<Migration>, applied: map<nat, Record>, k: nat)
    requires k <= |dir|
    ensures Pending(dir[..k], applied) <= Pending(dir, applied)
    decreases |dir| - k
  {
    if k == |dir| {
      assert dir[..k] == dir;
    } else {
      PrefixPending(dir, applied, k + 1);
      assert dir[..k + 1][..k] == dir[..k];
    }
  }

  /** Stopping at a due file: what came before it is done, and it is next in line. */
  lemma StoppedAt(dir: seq<Migration>, applied: map<nat, Record>, k: nat)
    requires k < |dir| && dir[k].version !in applied
    ensures var done := Pending(dir[..k], applied);
            done <= Pending(dir, applied) && |done| < |Pending(dir, applied)| && Pending(dir, applied)[|done|] == dir[k]
  {
    OneMorePending(dir, applied, k);
    PrefixPending(dir, applied, k + 1);
  }

  lemma OneMorePending(dir: seq<Migration>, applied: map<nat, Record>, k: nat)
    requires k < |dir|
    ensures Pending(dir[..k + 1], applied) == Pending(dir[..k], applied) + if dir[k].version in applied then [] else [dir[k]]
    ensures dir[k].version in applied ==> Pending(dir[..k + 1], applied) == Pending(dir[..k], applied)
  {
    assert dir[..k + 1][..k] == dir[..k];
    assert Pending(dir[..k], applied) + [] == Pending(dir[..k], applied);
  }

  lemma NotRecordedYet(c: Config, dir: seq<Migration>, applied: map<nat, Record>, k: nat, done: seq<Migration>, recorded: map<nat, Record>)
    requires Ascending(dir) && k < |dir| && dir[k].version !in applied
    requires done == Pending(dir[..k], applied) && Adds(c, applied, done, recorded)
    ensures dir[k].version !in recorded
  {
    forall m | m in done ensures m.version < dir[k].version {
      PendingIs(dir[..k], applied, m);
      var i :| 0 <= i < k && dir[..k][i] == m;
    }
  }
}
