/** Versioned partitions: creators, activators, quarantines and rollbacks sharing one registry. */
module Partitions {
  import opened Naming
  import opened Options

  datatype Part = Part(dataset: string, key: string)
  datatype Slot = Slot(part: Part, version: nat)

  /** Registered versions and their active flags. */
  type Registry = map<Slot, bool>
  type Data = seq<int>

  function Stem(q: Part): string { Join(Slug(q.dataset), Slug(q.key)) }
  function TableOf(s: Slot): string { TableName(s.part.dataset, s.part.key, s.version) }

  /** `COALESCE(MAX(version), 0)` over the versions of one partition. */
  ghost predicate IsMax(reg: Registry, q: Part, m: nat) {
    (m == 0 || Slot(q, m) in reg) && forall v: nat :: Slot(q, v) in reg ==> v <= m
  }

  /** The pointer flip: every version off, then `v` on where it exists. */
  function Flip(reg: Registry, q: Part, v: nat): Registry {
    map s | s in reg :: if s.part == q then s.version == v else reg[s]
  }

  function Quarantined(reg: Registry, q: Part): Registry { map s | s in reg :: reg[s] && s.part != q }

  ghost predicate IsActive(reg: Registry, q: Part, v: nat) { Slot(q, v) in reg && reg[Slot(q, v)] }

  /** Quarantining leaves a partition without an active version and every other partition and registration alone. */
  lemma QuarantineMeans(reg: Registry, q: Part)
    ensures Quarantined(reg, q).Keys == reg.Keys
    ensures forall v: nat :: Slot(q, v) in reg ==> !Quarantined(reg, q)[Slot(q, v)]
    ensures forall t :: t in reg && t.part != q ==> Quarantined(reg, q)[t] == reg[t]
  {}

  /** Activating leaves exactly that version of the partition active, if it is registered, and the rest alone. */
  lemma ActivationMeans(reg: Registry, q: Part, v: nat)
    ensures Flip(reg, q, v).Keys == reg.Keys
    ensures forall u: nat :: Slot(q, u) in reg ==> (Flip(reg, q, v)[Slot(q, u)] <==> u == v)
    ensures forall t :: t in reg && t.part != q ==> Flip(reg, q, v)[t] == reg[t]
  {}

  // --- Gate and rollback ------------------------------------------------------------------------

  ghost predicate Active(reg: Registry, q: Part, cur: Option<nat>) {
    match cur
    case Some(v) => IsActive(reg, q, v)
    case None => forall v: nat :: !IsActive(reg, q, v)
  }

  predicate Below(v: nat, cur: Option<nat>) { cur.None? || v < cur.value }

  /** What rollback activates: the highest version below the active one (any version if none is). */
  ghost predicate RollsBackTo(reg: Registry, q: Part, cur: Option<nat>, r: Option<nat>) {
    match r
    case None => forall v: nat :: Slot(q, v) in reg ==> !Below(v, cur)
    case Some(t) => Slot(q, t) in reg && Below(t, cur)
                    && forall v: nat :: Slot(q, v) in reg && Below(v, cur) ==> v <= t
  }

  /** The gate's prior-version fact for a rollback of `q`. */
  ghost predicate HasPriorVersion(reg: Registry, q: Part, cur: Option<nat>) {
    if cur.None? then exists v: nat :: Slot(q, v) in reg
    else exists v: nat :: Slot(q, v) in reg && v < cur.value
  }

  /** In one state the gate answers yes exactly when the rollback it guards finds a version. */
  lemma GateAgreesWithRollback(reg: Registry, q: Part, cur: Option<nat>, r: Option<nat>)
    requires Active(reg, q, cur) && RollsBackTo(reg, q, cur, r)
    ensures HasPriorVersion(reg, q, cur) <==> r.Some?
  {
    if r.Some? { assert Slot(q, r.value) in reg; }
  }

  /** Registered versions are gap-free from 1. */
  ghost predicate Dense(reg: Registry) {
    forall s :: s in reg ==> s.version >= 1 && (s.version > 1 ==> Slot(s.part, s.version - 1) in reg)
  }

  ghost predicate OneActive(reg: Registry) {
    forall s, t :: s in reg && t in reg && reg[s] && reg[t] && s.part == t.part ==> s == t
  }

  /** From an active version, rollback moves to the immediate predecessor, which becomes the active one. */
  lemma RollbackDescends(reg: Registry, q: Part, v: nat, r: Option<nat>)
    requires Dense(reg) && OneActive(reg) && IsActive(reg, q, v) && RollsBackTo(reg, q, Some(v), r)
    ensures v == 1 <==> r.None?
    ensures r.Some? ==> r.value == v - 1 && Active(Flip(reg, q, v - 1), q, Some(v - 1))
    ensures Dense(Flip(reg, q, v - 1)) && OneActive(Flip(reg, q, v - 1))
  {
    assert Slot(q, v) in reg;
    assert v > 1 ==> Slot(q, v - 1) in reg;
    FlipKeeps(reg, q, v - 1);
  }

  /** One rollback: what it answers in `reg`, and the registry it leaves. */
  ghost predicate OneRollback(reg: Registry, q: Part, answer: Option<nat>, after: Registry) {
    && (exists cur: Option<nat> :: Active(reg, q, cur) && RollsBackTo(reg, q, cur, answer))
    && after == if answer.Some? then Flip(reg, q, answer.value) else reg
  }

  /** One rollback after another. */
  ghost predicate Rollbacks(q: Part, regs: seq<Registry>, answers: seq<Option<nat>>) {
    |regs| == |answers| + 1 && forall i :: 0 <= i < |answers| ==> OneRollback(regs[i], q, answers[i], regs[i + 1])
  }

  /** The active version after `k` rollbacks from `v`. */
  function Level(v: nat, k: nat): nat { if k < v then v - k else 1 }

  ghost predicate Standing(reg: Registry, q: Part, v: nat, k: nat) {
    Dense(reg) && OneActive(reg) && v >= 1 && IsActive(reg, q, Level(v, k))
  }

  lemma RollbackOnce(mid: Registry, q: Part, v: nat, k: nat, answer: Option<nat>, after: Registry)
    requires Standing(mid, q, v, k) && OneRollback(mid, q, answer, after)
    ensures answer == if k < v - 1 then Some(v - 1 - k) else None
    ensures Standing(after, q, v, k + 1)
  {
    var cur: Option<nat> :| Active(mid, q, cur) && RollsBackTo(mid, q, cur, answer);
    ActiveIs(mid, q, Level(v, k), cur);
    RollbackDescends(mid, q, Level(v, k), answer);
    hide Dense, OneActive;
  }

  /** Repeating it descends one version at a time, and answers nothing any more once version 1 is active. */
  lemma {:induction false} RollbacksDescend(q: Part, v: nat, regs: seq<Registry>, answers: seq<Option<nat>>, n: nat)
    requires Rollbacks(q, regs, answers) && n <= |answers|
    requires Dense(regs[0]) && OneActive(regs[0]) && IsActive(regs[0], q, v)
    ensures Standing(regs[n], q, v, n)
  {
    RollbackAt(q, regs, answers, if n == 0 then 0 else n - 1);
    hide *;
    if n == 0 {
      LevelStarts(regs[0], q, v);
    } else {
      RollbacksDescend(q, v, regs, answers, n - 1);
      RollbackOnce(regs[n - 1], q, v, n - 1, answers[n - 1], regs[n]);
    }
  }

  lemma RollbackAt(q: Part, regs: seq<Registry>, answers: seq<Option<nat>>, i: nat)
    requires Rollbacks(q, regs, answers) && i <= |answers|
    ensures |regs| == |answers| + 1 && (i < |answers| ==> OneRollback(regs[i], q, answers[i], regs[i + 1]))
  {
    hide OneRollback;
  }

  /** So the i-th answer is the version below, and nothing once version 1 is active. */
  lemma RollbackAnswers(q: Part, v: nat, regs: seq<Registry>, answers: seq<Option<nat>>, i: nat)
    requires Rollbacks(q, regs, answers) && i < |answers|
    requires Dense(regs[0]) && OneActive(regs[0]) && IsActive(regs[0], q, v)
    ensures answers[i] == if i < v - 1 then Some(v - 1 - i) else None
  {
    RollbackAt(q, regs, answers, i);
    hide *;
    RollbacksDescend(q, v, regs, answers, i);
    RollbackOnce(regs[i], q, v, i, answers[i], regs[i + 1]);
  }

  lemma LevelStarts(reg: Registry, q: Part, v: nat)
    requires Dense(reg) && OneActive(reg) && IsActive(reg, q, v)
    ensures Standing(reg, q, v, 0)
  {
    hide OneActive;
  }

  lemma ActiveIs(reg: Registry, q: Part, v: nat, cur: Option<nat>)
    requires OneActive(reg) && IsActive(reg, q, v) && Active(reg, q, cur)
    ensures cur == Some(v)
  {
    if cur.Some? { assert Slot(q, cur.value) in reg && Slot(q, v) in reg; }
  }

  lemma FlipKeeps(reg: Registry, q: Part, v: nat)
    requires Dense(reg) && OneActive(reg)
    ensures Dense(Flip(reg, q, v)) && OneActive(Flip(reg, q, v)) && Flip(reg, q, v).Keys == reg.Keys
  {
    assert forall s :: s in Flip(reg, q, v) <==> s in reg;
  }

  lemma QuarantineKeeps(reg: Registry, q: Part)
    requires Dense(reg) && OneActive(reg)
    ensures Dense(Quarantined(reg, q)) && OneActive(Quarantined(reg, q)) && Quarantined(reg, q).Keys == reg.Keys
  {
    assert forall s :: s in Quarantined(reg, q) <==> s in reg;
  }

  lemma {:induction false} MaxExists(reg: Registry, q: Part) returns (m: nat)
    ensures IsMax(reg, q, m)
    decreases |reg|
  {
    m := 0;
    if s :| s in reg {
      var rest := reg - {s};
      assert |rest.Keys| < |reg.Keys| by { assert rest.Keys == reg.Keys - {s}; }
      m := MaxExists(rest, q);
      assert forall v: nat :: Slot(q, v) in reg ==> Slot(q, v) in rest || Slot(q, v) == s;
      if s.part == q && s.version > m { m := s.version; }
    }
  }

  lemma {:induction false} DenseBelow(reg: Registry, q: Part, n: nat, v: nat)
    requires Dense(reg) && Slot(q, n) in reg && 1 <= v <= n
    ensures Slot(q, v) in reg
    decreases n
  {
    if v < n { DenseBelow(reg, q, n - 1, v); }
  }

  // --- The concurrent protocol ------------------------------------------------------------------

  type Pid = nat

  /** The partitions in use, the lock hash and the naming scheme are left open. */
  datatype Config = Config(procs: set<Pid>, parts: set<Part>, lockKey: Part -> int, tableOf: Slot -> string)

  /** Where a manager call is. From `Locked` to `Filled` it is inside one open transaction holding the
      partition's lock; nothing staged is visible to others before the commit. */
  datatype Phase =
    | Idle
    | Locked(q: Part, rows: Data, activate: bool)
    | Numbered(q: Part, rows: Data, activate: bool, v: nat)
    | Staged(q: Part, rows: Data, activate: bool, v: nat, table: Data)
    | Filled(q: Part, rows: Data, activate: bool, v: nat, table: Data)
    | Created(q: Part, v: nat)
    | Looked(q: Part, cur: Option<nat>)
    | Targeted(q: Part, v: nat)

  predicate InTransaction(ph: Phase) { ph.Locked? || ph.Numbered? || ph.Staged? || ph.Filled? }
  predicate HasNumber(ph: Phase) { ph.Numbered? || ph.Staged? || ph.Filled? }

  datatype State = State(
    reg: Registry,
    tables: map<string, Data>,
    made: map<Slot, Data>,       // history: what the creator of each version was given
    locks: map<int, Pid>,
    procs: map<Pid, Phase>,
    conflicts: nat)              // commits refused by the registry's primary key

  datatype Event =
    | Begin(p: Pid, q: Part, rows: Data, activate: bool)
    | ReadMax(p: Pid, m: nat)
    | Build(p: Pid)
    | Fill(p: Pid)
    | Commit(p: Pid)
    | ActivateOwn(p: Pid)
    | Lookup(p: Pid, q: Part, cur: Option<nat>)
    | PickTarget(p: Pid, r: Option<nat>)
    | FlipPointer(p: Pid)
    | Activate(q: Part, v: nat)
    | Quarantine(q: Part)
    | Crash(p: Pid)

  predicate IsOperator(e: Event) { e.Activate? || e.Quarantine? }

  ghost predicate Enabled(c: Config, s: State, e: Event)
    requires s.procs.Keys == c.procs
  {
    IsOperator(e) ||
    (&& e.p in c.procs
     && var ph := s.procs[e.p];
        match e
        case Begin(_, q, _, _) => ph.Idle? && q in c.parts && c.lockKey(q) !in s.locks
        case ReadMax(_, m) => ph.Locked? && IsMax(s.reg, ph.q, m)
        case Build(_) => ph.Numbered?
        case Fill(_) => ph.Staged?
        case Commit(_) => ph.Filled?
        case ActivateOwn(_) => ph.Created?
        case Lookup(_, q, cur) => ph.Idle? && q in c.parts && Active(s.reg, q, cur)
        case PickTarget(_, r) => ph.Looked? && RollsBackTo(s.reg, ph.q, ph.cur, r)
        case FlipPointer(_) => ph.Targeted?
        case Crash(_) => true)
  }

  function Step(c: Config, s: State, e: Event): (s': State)
    requires s.procs.Keys == c.procs && (IsOperator(e) || e.p in c.procs)
    ensures s'.procs.Keys == c.procs
  {
    if IsOperator(e) then match e
      case Activate(q, v) => s.(reg := Flip(s.reg, q, v))
      case Quarantine(q) => s.(reg := Quarantined(s.reg, q))
    else
      var p := e.p;
      var ph := s.procs[p];
      match e
      case Begin(_, q, rows, activate) =>
        s.(procs := s.procs[p := Locked(q, rows, activate)], locks := s.locks[c.lockKey(q) := p])
      case ReadMax(_, m) =>
        if ph.Locked? then s.(procs := s.procs[p := Numbered(ph.q, ph.rows, ph.activate, m + 1)]) else s
      case Build(_) =>
        if ph.Numbered? then s.(procs := s.procs[p := Staged(ph.q, ph.rows, ph.activate, ph.v, [])]) else s
      case Fill(_) =>
        if ph.Staged? then s.(procs := s.procs[p := Filled(ph.q, ph.rows, ph.activate, ph.v, ph.table + ph.rows)]) else s
      case Commit(_) => if ph.Filled? then CommitOf(c, s, p) else s
      case ActivateOwn(_) =>
        if ph.Created? then s.(procs := s.procs[p := Idle], reg := Flip(s.reg, ph.q, ph.v)) else s
      case Lookup(_, q, cur) => s.(procs := s.procs[p := Looked(q, cur)])
      case PickTarget(_, r) =>
        if ph.Looked? then s.(procs := s.procs[p := if r.Some? then Targeted(ph.q, r.value) else Idle]) else s
      case FlipPointer(_) =>
        if ph.Targeted? then s.(procs := s.procs[p := Idle], reg := Flip(s.reg, ph.q, ph.v)) else s
      case Crash(_) =>
        s.(procs := s.procs[p := Idle], locks := if InTransaction(ph) then s.locks - {c.lockKey(ph.q)} else s.locks)
  }

  /** The commit publishes table and registry row together, or nothing when the key is taken. */
  function CommitOf(c: Config, s: State, p: Pid): State
    requires p in s.procs && s.procs[p].Filled?
  {
    var ph := s.procs[p];
    var slot := Slot(ph.q, ph.v);
    var unlocked := s.locks - {c.lockKey(ph.q)};
    if slot in s.reg then s.(procs := s.procs[p := Idle], locks := unlocked, conflicts := s.conflicts + 1)
    else s.(procs := s.procs[p := if ph.activate then Created(ph.q, ph.v) else Idle],
            locks := unlocked,
            reg := s.reg[slot := false],
            tables := s.tables[c.tableOf(slot) := ph.table],
            made := s.made[slot := ph.rows])
  }

  ghost function Run(c: Config, es: seq<Event>): (s: State)
    ensures s.procs.Keys == c.procs
  {
    if es == [] then State(map[], map[], map[], map[], map p | p in c.procs :: Idle, 0)
    else
      var s := Run(c, es[..|es| - 1]);
      var e := es[|es| - 1];
      if Enabled(c, s, e) then Step(c, s, e) else s
  }

  // --- Invariants -------------------------------------------------------------------------------

  ghost predicate ProcInv(c: Config, s: State, p: Pid)
    requires s.procs.Keys == c.procs && p in c.procs
  {
    var ph := s.procs[p];
    && (InTransaction(ph) ==> ph.q in c.parts && c.lockKey(ph.q) in s.locks && s.locks[c.lockKey(ph.q)] == p)
    && (HasNumber(ph) ==> ph.v >= 1 && IsMax(s.reg, ph.q, ph.v - 1))
    && (ph.Staged? ==> ph.table == [])
    && (ph.Filled? ==> ph.table == ph.rows)
  }

  ghost predicate Inv(c: Config, s: State)
    requires s.procs.Keys == c.procs
  {
    && (forall p :: p in c.procs ==> ProcInv(c, s, p))
    && Dense(s.reg) && OneActive(s.reg) && s.conflicts == 0
    && s.made.Keys == s.reg.Keys
    && (forall t :: t in s.reg ==> t.part in c.parts)
  }

  /** A registered version has its table, holding exactly what its creator was given. */
  ghost predicate TableIntact(c: Config, s: State, t: Slot) {
    t in s.made && c.tableOf(t) in s.tables && s.tables[c.tableOf(t)] == s.made[t]
  }

  ghost predicate TablesIntact(c: Config, s: State) { forall t :: t in s.reg ==> TableIntact(c, s, t) }

  lemma SameMax(r: Registry, r': Registry, q: Part, m: nat)
    requires r.Keys == r'.Keys && IsMax(r, q, m)
    ensures IsMax(r', q, m)
  {
    assert forall v: nat :: Slot(q, v) in r' <==> Slot(q, v) in r;
  }

  /** Only flags changed: everything about numbering stays. */
  lemma FlagsKeepInv(c: Config, s: State, s': State, p: Pid)
    requires s.procs.Keys == c.procs && s'.procs.Keys == c.procs && Inv(c, s)
    requires s'.reg.Keys == s.reg.Keys && Dense(s'.reg) && OneActive(s'.reg)
    requires s'.made == s.made && s'.conflicts == 0 && s'.locks == s.locks
    requires s'.procs == s.procs || (p in c.procs && s'.procs == s.procs[p := Idle])
    ensures Inv(c, s')
  {
    hide Dense, OneActive, IsMax;
    forall q | q in c.procs ensures ProcInv(c, s', q) {
      assert ProcInv(c, s, q);
      if HasNumber(s.procs[q]) { SameMax(s.reg, s'.reg, s.procs[q].q, s.procs[q].v - 1); }
    }
    forall t | t in s'.reg ensures t.part in c.parts { assert t in s.reg; }
  }

  /** A step of `p` that registers nothing: it keeps its lock, takes a free one or gives it back. */
  ghost predicate PrivateDelta(c: Config, s: State, s': State, p: Pid)
    requires s.procs.Keys == c.procs && s'.procs.Keys == c.procs && p in c.procs
  {
    var ph, ph' := s.procs[p], s'.procs[p];
    && s'.procs == s.procs[p := ph'] && s'.reg == s.reg && s'.made == s.made && s'.conflicts == s.conflicts
    && s'.tables == s.tables
    && (|| s'.locks == s.locks
        || (ph'.Locked? && c.lockKey(ph'.q) !in s.locks && s'.locks == s.locks[c.lockKey(ph'.q) := p])
        || (InTransaction(ph) && s'.locks == s.locks - {c.lockKey(ph.q)}))
  }

  predicate IsPrivate(e: Event) {
    e.Begin? || e.ReadMax? || e.Build? || e.Fill? || e.Lookup? || e.PickTarget? || e.Crash?
  }

  lemma PrivateStep(c: Config, s: State, e: Event)
    requires s.procs.Keys == c.procs && Enabled(c, s, e) && IsPrivate(e) && ProcInv(c, s, e.p)
    ensures PrivateDelta(c, s, Step(c, s, e), e.p) && ProcInv(c, Step(c, s, e), e.p)
  {}

  lemma PrivateKeepsInv(c: Config, s: State, s': State, p: Pid)
    requires s.procs.Keys == c.procs && s'.procs.Keys == c.procs && p in c.procs && Inv(c, s)
    requires PrivateDelta(c, s, s', p) && ProcInv(c, s', p)
    ensures Inv(c, s')
  {
    assert ProcInv(c, s, p);
    forall o | o in c.procs ensures ProcInv(c, s', o) { assert ProcInv(c, s, o); }
  }

  /** While one process has numbered its version, nobody else is numbering in that partition. */
  lemma OthersElsewhere(c: Config, s: State, p: Pid, o: Pid)
    requires s.procs.Keys == c.procs && p in c.procs && o in c.procs && o != p
    requires ProcInv(c, s, p) && ProcInv(c, s, o) && InTransaction(s.procs[p]) && InTransaction(s.procs[o])
    ensures s.procs[o].q != s.procs[p].q && c.lockKey(s.procs[o].q) != c.lockKey(s.procs[p].q)
  {}

  lemma CommitIsFree(c: Config, s: State, p: Pid)
    requires s.procs.Keys == c.procs && Inv(c, s) && p in c.procs && s.procs[p].Filled?
    ensures Slot(s.procs[p].q, s.procs[p].v) !in s.reg && s.procs[p].q in c.parts
    ensures s.procs[p].v >= 1 && (s.procs[p].v > 1 ==> Slot(s.procs[p].q, s.procs[p].v - 1) in s.reg)
    ensures s.procs[p].table == s.procs[p].rows
  {
    assert ProcInv(c, s, p);
  }

  lemma CommitKeepsOthers(c: Config, s: State, p: Pid, o: Pid)
    requires s.procs.Keys == c.procs && Inv(c, s) && p in c.procs && s.procs[p].Filled? && o in c.procs
    ensures CommitOf(c, s, p).procs.Keys == c.procs && ProcInv(c, CommitOf(c, s, p), o)
  {
    hide Dense, OneActive;
    var s', ph := CommitOf(c, s, p), s.procs[p];
    assert ProcInv(c, s, p) && ProcInv(c, s, o);
    if o != p && InTransaction(s.procs[o]) {
      OthersElsewhere(c, s, p, o);
      if HasNumber(s.procs[o]) {
        assert forall v: nat :: Slot(s.procs[o].q, v) in s'.reg <==> Slot(s.procs[o].q, v) in s.reg;
      }
    }
  }

  lemma CommitKeepsInv(c: Config, s: State, p: Pid)
    requires s.procs.Keys == c.procs && Inv(c, s) && p in c.procs && s.procs[p].Filled?
    ensures CommitOf(c, s, p).procs.Keys == c.procs && Inv(c, CommitOf(c, s, p))
  {
    var s' := CommitOf(c, s, p);
    CommitKeepsRegistry(c, s, p);
    forall o | o in c.procs ensures ProcInv(c, s', o) { CommitKeepsOthers(c, s, p, o); }
    hide CommitOf, ProcInv, Dense, OneActive;
  }

  lemma CommitKeepsRegistry(c: Config, s: State, p: Pid)
    requires s.procs.Keys == c.procs && Inv(c, s) && p in c.procs && s.procs[p].Filled?
    ensures var s' := CommitOf(c, s, p);
            && Dense(s'.reg) && OneActive(s'.reg) && s'.conflicts == 0 && s'.made.Keys == s'.reg.Keys
            && forall t :: t in s'.reg ==> t.part in c.parts
  {
    CommitIsFree(c, s, p);
    hide ProcInv, IsMax;
    var t := Slot(s.procs[p].q, s.procs[p].v);
    CommitStaysDense(s.reg, t);
    CommitStaysOneActive(s.reg, t);
    hide Dense, OneActive;
    assert CommitOf(c, s, p).reg == s.reg[t := false] && CommitOf(c, s, p).made == s.made[t := s.procs[p].rows];
  }

  lemma CommitStaysDense(reg: Registry, t: Slot)
    requires Dense(reg) && t !in reg && t.version >= 1 && (t.version > 1 ==> Slot(t.part, t.version - 1) in reg)
    ensures Dense(reg[t := false])
  {}

  lemma CommitStaysOneActive(reg: Registry, t: Slot)
    requires OneActive(reg) && t !in reg
    ensures OneActive(reg[t := false])
  {}

  lemma StepKeepsInv(c: Config, s: State, e: Event)
    requires s.procs.Keys == c.procs && Inv(c, s) && Enabled(c, s, e)
    ensures Inv(c, Step(c, s, e))
  {
    match e
    case Activate(q, v) => FlipKeeps(s.reg, q, v); FlagsKeepInv(c, s, Step(c, s, e), 0);
    case Quarantine(q) => QuarantineKeeps(s.reg, q); FlagsKeepInv(c, s, Step(c, s, e), 0);
    case ActivateOwn(p) => FlipKeeps(s.reg, s.procs[p].q, s.procs[p].v); FlagsKeepInv(c, s, Step(c, s, e), p);
    case FlipPointer(p) => FlipKeeps(s.reg, s.procs[p].q, s.procs[p].v); FlagsKeepInv(c, s, Step(c, s, e), p);
    case Commit(p) => CommitKeepsInv(c, s, p);
    case _ =>
      assert ProcInv(c, s, e.p);
      PrivateStep(c, s, e);
      PrivateKeepsInv(c, s, Step(c, s, e), e.p);
  }

  /** No two versions of the partitions in use share a table. */
  ghost predicate NamesDistinct(c: Config) {
    forall s: Slot, t: Slot :: s.part in c.parts && t.part in c.parts && c.tableOf(s) == c.tableOf(t) ==> s == t
  }

  lemma CommitKeepsTables(c: Config, s: State, p: Pid)
    requires NamesDistinct(c) && s.procs.Keys == c.procs && Inv(c, s) && TablesIntact(c, s)
    requires p in c.procs && s.procs[p].Filled?
    ensures TablesIntact(c, CommitOf(c, s, p))
  {
    var s', ph := CommitOf(c, s, p), s.procs[p];
    CommitIsFree(c, s, p);
    var slot := Slot(ph.q, ph.v);
    forall t | t in s'.reg ensures TableIntact(c, s', t) {
      if t != slot {
        assert TableIntact(c, s, t);
        assert c.tableOf(t) != c.tableOf(slot);
      }
    }
  }

  lemma StepKeepsTables(c: Config, s: State, e: Event)
    requires NamesDistinct(c) && s.procs.Keys == c.procs && Inv(c, s) && Enabled(c, s, e) && TablesIntact(c, s)
    ensures TablesIntact(c, Step(c, s, e))
  {
    if e.Commit? {
      CommitKeepsTables(c, s, e.p);
    } else {
      var s' := Step(c, s, e);
      OtherStepsKeepTables(c, s, e);
      forall t | t in s'.reg ensures TableIntact(c, s', t) { assert TableIntact(c, s, t); }
    }
  }

  lemma OtherStepsKeepTables(c: Config, s: State, e: Event)
    requires s.procs.Keys == c.procs && Enabled(c, s, e) && !e.Commit?
    ensures var s' := Step(c, s, e); s'.tables == s.tables && s'.made == s.made && s'.reg.Keys == s.reg.Keys
  {
    var reg := s.reg;
    assert forall q, v :: Flip(reg, q, v).Keys == reg.Keys;
    assert forall q :: Quarantined(reg, q).Keys == reg.Keys;
  }

  /** Under any interleaving and crashes the versions of a partition are exactly 1..n, at most one is
      active, and no creator ever loses its commit to another. */
  lemma {:induction false} VersionsAreOneToN(c: Config, es: seq<Event>, q: Part) returns (n: nat)
    ensures forall v: nat :: Slot(q, v) in Run(c, es).reg <==> 1 <= v <= n
    ensures OneActive(Run(c, es).reg) && Run(c, es).conflicts == 0
  {
    RunKeepsInv(c, es);
    var reg := Run(c, es).reg;
    n := MaxExists(reg, q);
    forall v: nat ensures Slot(q, v) in reg <==> 1 <= v <= n {
      if 1 <= v <= n { DenseBelow(reg, q, n, v); }
    }
  }

  lemma {:induction false} RunKeepsInv(c: Config, es: seq<Event>)
    ensures Inv(c, Run(c, es))
  {
    if es != [] {
      var s := Run(c, es[..|es| - 1]);
      RunKeepsInv(c, es[..|es| - 1]);
      if Enabled(c, s, es[|es| - 1]) { StepKeepsInv(c, s, es[|es| - 1]); }
    }
  }

  /** Given distinct table names, each version's physical table holds exactly its creator's rows. */
  lemma {:induction false} CreatorsRowsSurvive(c: Config, es: seq<Event>)
    requires NamesDistinct(c)
    ensures TablesIntact(c, Run(c, es))
  {
    if es != [] {
      var s := Run(c, es[..|es| - 1]);
      CreatorsRowsSurvive(c, es[..|es| - 1]);
      RunKeepsInv(c, es[..|es| - 1]);
      if Enabled(c, s, es[|es| - 1]) { StepKeepsTables(c, s, es[|es| - 1]); }
    }
  }

  /** Partitions in use do not share a joined slug. */
  ghost predicate StemsDistinct(parts: set<Part>) {
    forall q, r :: q in parts && r in parts && Stem(q) == Stem(r) ==> q == r
  }

  ghost predicate UsesTableName(c: Config) { forall s: Slot :: c.tableOf(s) == TableOf(s) }

  /** For the real naming scheme, table names are distinct exactly when the joined slugs are. */
  lemma TableNamesDistinctIff(c: Config)
    requires UsesTableName(c)
    ensures NamesDistinct(c) <==> StemsDistinct(c.parts)
  {
    if NamesDistinct(c) {
      forall q, r | q in c.parts && r in c.parts && Stem(q) == Stem(r) ensures q == r {
        TableNamesCollideIff(q.dataset, q.key, 1, r.dataset, r.key, 1);
        assert c.tableOf(Slot(q, 1)) == c.tableOf(Slot(r, 1));
      }
    }
    if StemsDistinct(c.parts) {
      forall s: Slot, t: Slot | s.part in c.parts && t.part in c.parts && c.tableOf(s) == c.tableOf(t) ensures s == t {
        TableNamesCollideIff(s.part.dataset, s.part.key, s.version, t.part.dataset, t.part.key, t.version);
        assert Stem(s.part) == Stem(t.part);
      }
    }
  }

  /** Distinct slugs free of a double underscore are enough for that. */
  lemma CleanSlugsGiveDistinctStems(parts: set<Part>)
    requires forall q :: q in parts ==> NoDouble(Slug(q.dataset))
    requires forall q, r :: q in parts && r in parts && Slug(q.dataset) == Slug(r.dataset) && Slug(q.key) == Slug(r.key) ==> q == r
    ensures StemsDistinct(parts)
  {
    forall q, r | q in parts && r in parts && Stem(q) == Stem(r) ensures q == r {
      SlugFacts(q.dataset);
      SlugFacts(r.dataset);
      JoinReadsBack(Slug(q.dataset), Slug(q.key), Slug(r.dataset), Slug(r.key));
    }
  }

  // --- Distinct names are also necessary --------------------------------------------------------

  lemma RunMore(c: Config, es: seq<Event>, e: Event)
    requires Enabled(c, Run(c, es), e)
    ensures Run(c, es + [e]) == Step(c, Run(c, es), e)
  {
    assert (es + [e])[..|es|] == es;
  }

  lemma Numbering(c: Config, es: seq<Event>, p: Pid, q: Part, rows: Data) returns (es': seq<Event>)
    requires p in c.procs && q in c.parts && Run(c, es).procs[p] == Idle && Run(c, es).locks == map[]
    requires IsMax(Run(c, es).reg, q, 0)
    ensures var s := Run(c, es);
            Run(c, es') == s.(procs := s.procs[p := Numbered(q, rows, false, 1)], locks := map[c.lockKey(q) := p])
  {
    var s := Run(c, es);
    var e1 := es + [Begin(p, q, rows, false)];
    RunMore(c, es, Begin(p, q, rows, false));
    assert Run(c, e1).reg == s.reg && Run(c, e1).procs[p] == Locked(q, rows, false);
    RunMore(c, e1, ReadMax(p, 0));
    es' := e1 + [ReadMax(p, 0)];
    assert Run(c, es').procs == s.procs[p := Numbered(q, rows, false, 1)];
  }

  lemma Filling(c: Config, es: seq<Event>, p: Pid, q: Part, rows: Data) returns (es': seq<Event>)
    requires p in c.procs && Run(c, es).procs[p] == Numbered(q, rows, false, 1)
    ensures var s := Run(c, es); Run(c, es') == s.(procs := s.procs[p := Filled(q, rows, false, 1, rows)])
  {
    var s := Run(c, es);
    RunMore(c, es, Build(p));
    var e1 := es + [Build(p)];
    RunMore(c, e1, Fill(p));
    es' := e1 + [Fill(p)];
    assert [] + rows == rows;
    assert Run(c, es').procs == s.procs[p := Filled(q, rows, false, 1, rows)];
  }

  /** A first version created without interruption is published as given. */
  lemma FirstVersion(c: Config, es: seq<Event>, p: Pid, q: Part, rows: Data) returns (es': seq<Event>)
    requires p in c.procs && q in c.parts && Run(c, es).procs[p] == Idle && Run(c, es).locks == map[]
    requires IsMax(Run(c, es).reg, q, 0) && Slot(q, 1) !in Run(c, es).reg
    ensures var s, s' := Run(c, es), Run(c, es');
            s' == s.(reg := s.reg[Slot(q, 1) := false], tables := s.tables[c.tableOf(Slot(q, 1)) := rows],
                     made := s.made[Slot(q, 1) := rows])
  {
    var s := Run(c, es);
    var e2 := Numbering(c, es, p, q, rows);
    var e4 := Filling(c, e2, p, q, rows);
    RunMore(c, e4, Commit(p));
    es' := e4 + [Commit(p)];
    assert Run(c, es').locks == s.locks;
    assert Run(c, es').procs == s.procs;
  }

  /** Two partitions with one joined slug: creating the second destroys the first one's table. */
  lemma SharedStemClobbers(c: Config, p: Pid, q: Part, r: Part) returns (es: seq<Event>)
    requires UsesTableName(c) && p in c.procs && q in c.parts && r in c.parts
    requires q != r && Stem(q) == Stem(r)
    ensures !TablesIntact(c, Run(c, es))
  {
    es := FirstVersion(c, [], p, q, [1]);
    es := FirstVersion(c, es, p, r, [2]);
    TableNamesCollideIff(q.dataset, q.key, 1, r.dataset, r.key, 1);
    var s := Run(c, es);
    assert Slot(q, 1) in s.reg && s.made[Slot(q, 1)] == [1] && s.tables[c.tableOf(Slot(q, 1))] == [2];
    assert !TableIntact(c, s, Slot(q, 1));
  }

  /** With the real naming scheme, creators' rows always survive exactly when no two partitions in
      use share a joined slug. */
  lemma RowsSurviveIffStemsDistinct(c: Config)
    requires UsesTableName(c) && c.procs != {}
    ensures (forall es :: TablesIntact(c, Run(c, es))) <==> StemsDistinct(c.parts)
  {
    TableNamesDistinctIff(c);
    if StemsDistinct(c.parts) {
      forall es ensures TablesIntact(c, Run(c, es)) { CreatorsRowsSurvive(c, es); }
    } else {
      var q, r :| q in c.parts && r in c.parts && Stem(q) == Stem(r) && q != r;
      var p :| p in c.procs;
      var es := SharedStemClobbers(c, p, q, r);
    }
  }

  // --- The manager, as one process sees it ------------------------------------------------------

  /** The manager's own calls on an undisturbed registry, statement by statement. */
  class PartitionVersionManager {
    var registry: Registry
    var tables: map<string, Data>

    constructor ()
      ensures registry == map[] && tables == map[]
    {
      registry, tables := map[], map[];
    }

    /** `SELECT ... ORDER BY version`. */
    method ListVersions(q: Part) returns (versions: seq<nat>)
      ensures forall i, j :: 0 <= i < j < |versions| ==> versions[i] < versions[j]
      ensures forall v: nat :: v in versions <==> Slot(q, v) in registry
    {
      var todo := set s | s in registry && s.part == q :: s.version;
      assert forall v: nat :: v in todo <==> Slot(q, v) in registry;
      versions := [];
      ghost var all := todo;
      while todo != {}
        invariant todo <= all && forall v :: v in versions <==> v in all - todo
        invariant forall i, j :: 0 <= i < j < |versions| ==> versions[i] < versions[j]
        decreases todo
      {
        var v :| v in todo;
        todo := todo - {v};
        versions := InsertVersion(versions, v);
      }
    }

    static method InsertVersion(sorted: seq<nat>, v: nat) returns (r: seq<nat>)
      requires forall i, j :: 0 <= i < j < |sorted| ==> sorted[i] < sorted[j]
      requires v !in sorted
      ensures forall i, j :: 0 <= i < j < |r| ==> r[i] < r[j]
      ensures forall u :: u in r <==> u == v || u in sorted
    {
      var k := 0;
      while k < |sorted| && sorted[k] < v
        invariant 0 <= k <= |sorted|
        invariant forall i :: 0 <= i < k ==> sorted[i] < v
      {
        k := k + 1;
      }
      assert sorted == sorted[..k] + sorted[k..];
      r := sorted[..k] + [v] + sorted[k..];
    }

    method NextVersion(q: Part) returns (version: nat)
      ensures version >= 1 && IsMax(registry, q, version - 1)
    {
      var versions := ListVersions(q);
      forall v: nat | Slot(q, v) in registry ensures v in versions {}
      version := 1;
      if versions != [] {
        version := versions[|versions| - 1] + 1;
        assert versions[|versions| - 1] in versions;
      }
    }

    /** Build the next version's table from scratch, register it, and optionally activate it. */
    method CreateVersion(q: Part, rows: Data, activate: bool) returns (version: nat)
      modifies this
      ensures version >= 1 && IsMax(old(registry), q, version - 1) && Slot(q, version) !in old(registry)
      ensures registry == var r := old(registry)[Slot(q, version) := false]; if activate then Flip(r, q, version) else r
      ensures tables == old(tables)[TableOf(Slot(q, version)) := rows]
    {
      version := NextVersion(q);
      var name := TableOf(Slot(q, version));
      tables := tables[name := []];
      for k := 0 to |rows|
        invariant registry == old(registry) && name in tables
        invariant tables == old(tables)[name := rows[..k]]
      {
        assert rows[..k + 1] == rows[..k] + [rows[k]];
        tables := tables[name := tables[name] + [rows[k]]];
      }
      assert rows[..|rows|] == rows;
      registry := registry[Slot(q, version) := false];
      if activate { Activate(q, version); }
    }

    /** The active version, if any. */
    method GetActive(q: Part) returns (cur: Option<nat>)
      ensures Active(registry, q, cur)
    {
      var versions := ListVersions(q);
      for k := 0 to |versions|
        invariant forall i :: 0 <= i < k ==> !IsActive(registry, q, versions[i])
      {
        if registry[Slot(q, versions[k])] { return Some(versions[k]); }
      }
      cur := None;
      forall v: nat ensures !IsActive(registry, q, v) {
        if Slot(q, v) in registry { assert v in versions; }
      }
    }

    method Activate(q: Part, version: nat)
      modifies this`registry
      ensures registry == Flip(old(registry), q, version)
    {
      registry := map s | s in registry :: registry[s] && s.part != q;
      if Slot(q, version) in registry {
        registry := registry[Slot(q, version) := true];
      }
      assert registry == Flip(old(registry), q, version);
    }

    /** Step one version down, or answer `None` and leave everything as it was. */
    method Rollback(q: Part) returns (r: Option<nat>)
      modifies this`registry
      ensures exists cur :: Active(old(registry), q, cur) && RollsBackTo(old(registry), q, cur, r)
      ensures registry == if r.Some? then Flip(old(registry), q, r.value) else old(registry)
    {
      var current := GetActive(q);
      var versions := ListVersions(q);
      var prior: seq<nat> := [];
      for k := 0 to |versions|
        invariant forall v :: v in prior <==> v in versions[..k] && Below(v, current)
      {
        if Below(versions[k], current) { prior := prior + [versions[k]]; }
      }
      assert versions[..|versions|] == versions;
      if prior == [] {
        forall v: nat | Slot(q, v) in registry ensures !Below(v, current) {
          assert v in versions;
          assert Below(v, current) ==> v in prior;
        }
        r := None;
      } else {
        var target := prior[0];
        for k := 1 to |prior|
          invariant target in prior && forall i :: 0 <= i < k ==> prior[i] <= target
        {
          if prior[k] > target { target := prior[k]; }
        }
        assert forall v: nat :: Slot(q, v) in registry && Below(v, current) ==> v in prior;
        assert RollsBackTo(registry, q, current, Some(target));
        Activate(q, target);
        r := Some(target);
      }
      assert RollsBackTo(old(registry), q, current, r);
    }
  }
}
