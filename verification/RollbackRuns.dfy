/** Runs of rollbacks: that one can always finish, and what goes wrong when two meet or somebody steps in between. */
module RollbackRuns {
  import opened Options
  import opened Actions
  import opened Tally
  import opened GovernedLoop
  import opened GovernedSteps
  import opened GovernedRollback
  import P = Partitions

  // --- Building runs ----------------------------------------------------------------------------

  /** A protocol step that judges nothing, decides no approval and runs no handler. */
  lemma Do(sc: Scene, ms: seq<Move>, e: Event) returns (ms': seq<Move>)
    requires Enabled(sc.c, Now(sc, Play(sc, ms)), e)
    requires HandlerOf(e).None? && !e.Judge? && !e.Reject? && !e.CutShort?
    ensures Now(sc, Play(sc, ms')) == Step(sc.c, Now(sc, Play(sc, ms)), e) && SameRegistry(Play(sc, ms), Play(sc, ms'))
  {
    ms' := ms + [Protocol(e)];
    RunAppend(sc.c, sc.now, Play(sc, ms).es, e);
    hide Run, Play, Step, Enabled, Acting;
    PlayOn(sc, ms, Protocol(e));
    assert Play(sc, ms).flights - {} == Play(sc, ms).flights;
  }

  /** Neither the registry nor any rollback under way differs. */
  ghost predicate SameRegistry(w: World, w': World) { w'.reg == w.reg && w'.flights == w.flights }

  /** The handler looks and lists with nobody in between. */
  lemma Reads(sc: Scene, ms: seq<Move>, h: Handler, cur: Option<nat>, to: Option<nat>) returns (ms': seq<Move>)
    requires var w := Play(sc, ms);
             && RollsBack(sc, w, h) && h !in w.flights
             && P.Active(w.reg, PartOf(sc, w, h), cur) && P.RollsBackTo(w.reg, PartOf(sc, w, h), cur, to)
    ensures var w := Play(sc, ms);
            Play(sc, ms') == w.(flights := w.flights[h := Picked(cur, to, w.reg, w.reg)])
    ensures |ms'| == |ms| + 2 && ms'[..|ms|] == ms
  {
    var w := Play(sc, ms);
    hide Run, Play, P.Active, P.RollsBackTo, Acting;
    PlayOn(sc, ms, Look(h, cur));
    var m1 := ms + [Look(h, cur)];
    PlayOn(sc, m1, Pick(h, to));
    ms' := m1 + [Pick(h, to)];
    assert w.flights[h := Looked(cur, w.reg)][h := Picked(cur, to, w.reg, w.reg)] == w.flights[h := Picked(cur, to, w.reg, w.reg)];
  }

  /** The step that ends a handler. */
  function Ending(h: Handler, res: HandlerResult): Event {
    match h
    case OfLoop(p) => Execute(p, res)
    case OfApproval(id) => Approve(id, res)
  }

  /** The registry after the handler's flip. */
  function Flipped(reg: P.Registry, q: P.Part, to: Option<nat>): P.Registry {
    if to.Some? then P.Flip(reg, q, to.value) else reg
  }

  lemma ActingIsEnabled(c: Config, s: State, h: Handler, res: HandlerResult)
    requires WellFormed(c, s) && Acting(c, s, h).Some?
    ensures Enabled(c, s, Ending(h, res))
  {}

  /** The step that ends a rollback, saying whether it changed anything. */
  function Landing(sc: Scene, w: World, h: Handler): Event
    requires RollsBack(sc, w, h) && h in w.flights && w.flights[h].Picked?
  {
    Ending(h, Succeeds(Flipped(w.reg, PartOf(sc, w, h), w.flights[h].to) != w.reg))
  }

  lemma Lands(sc: Scene, w: World, h: Handler)
    requires RollsBack(sc, w, h) && h in w.flights && w.flights[h].Picked?
    ensures var e := Landing(sc, w, h);
            && Can(sc, w, Protocol(e)) && HandlerOf(e) == Some(h)
            && After(sc, w, Protocol(e))
               == World(w.es + [e], Flipped(w.reg, PartOf(sc, w, h), w.flights[h].to), w.flights - {h}, w.listed)
  {
    var e := Landing(sc, w, h);
    ActingIsEnabled(sc.c, Now(sc, w), h, e.res);
    hide Run, Enabled, Acting, P.Flip;
    assert HandlerOf(e) == Some(h) && Over(e) == {h};
    assert Handle(sc, w, e) == Flipped(w.reg, PartOf(sc, w, h), w.flights[h].to);
  }

  /** Having picked, the handler flips and ends. */
  lemma Finishes(sc: Scene, ms: seq<Move>, h: Handler) returns (ms': seq<Move>)
    requires var w := Play(sc, ms); RollsBack(sc, w, h) && h in w.flights && w.flights[h].Picked?
    ensures var w, w' := Play(sc, ms), Play(sc, ms');
            && w'.reg == Flipped(w.reg, PartOf(sc, w, h), w.flights[h].to) && w'.flights == w.flights - {h}
            && Enabled(sc.c, Now(sc, w), Landing(sc, w, h)) && Now(sc, w') == Step(sc.c, Now(sc, w), Landing(sc, w, h))
            && ms' == ms + [Protocol(Landing(sc, w, h))] && HandlerOf(Landing(sc, w, h)) == Some(h)
            && Can(sc, w, Protocol(Landing(sc, w, h)))
  {
    var w := Play(sc, ms);
    var e := Landing(sc, w, h);
    Lands(sc, w, h);
    assert Enabled(sc.c, Now(sc, w), e);
    ms' := ms + [Protocol(e)];
    RunAppend(sc.c, sc.now, w.es, e);
    PlayOn(sc, ms, Protocol(e));
    hide Run, Play, Step, Enabled, RollsBack, Can, After, Landing, Flipped, PartOf;
  }

  /** A rollback always has an answer. */
  lemma FindsSomething(reg: P.Registry, q: P.Part) returns (cur: Option<nat>, r: Option<nat>)
    ensures P.Active(reg, q, cur) && P.RollsBackTo(reg, q, cur, r)
  {
    cur := None;
    if v: nat :| P.IsActive(reg, q, v) { cur := Some(v); }
    assert P.Active(reg, q, cur);
    var below := map t | t in reg && t.part == q && P.Below(t.version, cur) :: reg[t];
    var m := P.MaxExists(below, q);
    r := if P.Slot(q, m) in below then Some(m) else None;
    forall v: nat | P.Slot(q, v) in reg && P.Below(v, cur) ensures P.Slot(q, v) in below {}
    assert P.RollsBackTo(reg, q, cur, r);
  }

  /** A rollback is never stuck: from every run its handler can look, pick and end, whatever the registry holds. */
  lemma RollbackCanFinish(sc: Scene, ms: seq<Move>, h: Handler) returns (ms': seq<Move>)
    requires RollsBack(sc, Play(sc, ms), h) && h !in Play(sc, ms).flights
    ensures |ms'| == |ms| + 3 && ms'[..|ms|] == ms
    ensures ms'[|ms| + 2].Protocol? && HandlerOf(ms'[|ms| + 2].e) == Some(h) && Can(sc, Play(sc, ms'[..|ms| + 2]), ms'[|ms| + 2])
  {
    var w := Play(sc, ms);
    hide Play, Acting, Can, P.Active, P.RollsBackTo;
    var cur, to := FindsSomething(w.reg, PartOf(sc, w, h));
    var m1 := Reads(sc, ms, h, cur, to);
    ms' := Finishes(sc, m1, h);
    assert ms'[..|ms| + 2] == m1 && ms'[..|ms|] == m1[..|ms|];
  }

  // --- A tick that decides on a rollback --------------------------------------------------------

  /** A rollback by a recovery agent of process `p`, under the documented policy and without a cap. */
  ghost predicate Ready(c: Config, p: Pid, a: Action) {
    && p in c.procs && Recovery in c.enabled(p) && c.policy == SpecPolicy() && c.cap <= 0
    && a.agent == Recovery && a.kind == Rollback && a.target != c.runOf(p)
  }

  lemma PriorIsSeen(reg: P.Registry, q: P.Part)
    requires PriorVersion(reg, q)
    ensures GateSays(VersionsOf(reg, q), reg, q)
  {
    var cur: Option<nat> :| P.Active(reg, q, cur) && P.HasPriorVersion(reg, q, cur);
    var v: nat :| P.Slot(q, v) in reg && P.Below(v, cur);
    assert P.Slot(q, v).version in VersionsOf(reg, q);
  }

  lemma CanJudge(sc: Scene, w: World, p: Pid, a: Action, ctx: Context)
    requires p in sc.c.procs && Now(sc, w).procs[p].phase == Cleared(a) && a.kind == Rollback
    requires Enabled(sc.c, Now(sc, w), Judge(p, ctx, true))
    requires p in w.listed && (ctx.prior <==> GateSays(w.listed[p], w.reg, sc.partOf(a)))
    ensures var e := Judge(p, ctx, true);
            && Can(sc, w, Protocol(e))
            && After(sc, w, Protocol(e)) == World(w.es + [e], w.reg, w.flights, w.listed - {p})
  {
    hide Run, Enabled, GateSays;
    assert w.flights - {} == w.flights;
  }

  lemma CanList(sc: Scene, w: World, p: Pid, a: Action)
    requires p in sc.c.procs && Now(sc, w).procs[p].phase == Cleared(a)
    ensures Can(sc, w, List(p)) && After(sc, w, List(p)) == w.(listed := w.listed[p := VersionsOf(w.reg, sc.partOf(a))])
  {}

  /** Asked below the limit with a prior version there, the documented policy allows a rollback. */
  lemma PolicyAllows(c: Config, s: State, p: Pid, a: Action) returns (ctx: Context)
    requires Ready(c, p, a) && |s.rows| < RATE_LIMIT
    ensures ctx.prior && ctx.recent == Count(s.rows, ByAgentSince(c.runOf(p), a.agent, s.now - TEN_MINUTES))
    ensures c.policy(a, ctx) == GO
  {
    ctx := Context(0.0, 0.0, Count(s.rows, ByAgentSince(c.runOf(p), a.agent, s.now - TEN_MINUTES)), Unknown, true);
  }

  /** The gate reads the registry and allows the rollback. */
  lemma Allows(sc: Scene, ms: seq<Move>, p: Pid, a: Action) returns (ms': seq<Move>)
    requires Ready(sc.c, p, a) && PriorVersion(Play(sc, ms).reg, sc.partOf(a))
    requires var s := Now(sc, Play(sc, ms)); s.procs[p] == Proc(Reacting([]), Cleared(a)) && |s.rows| < RATE_LIMIT
    ensures var s := Now(sc, Play(sc, ms));
            Goes(s, Now(sc, Play(sc, ms')), p, Proc(Reacting([]), Judged(a, GO)), s.locks, s.rows, s.approvals)
    ensures SameRegistry(Play(sc, ms), Play(sc, ms'))
  {
    hide Run, Play, Step, Enabled, PriorVersion, GateSays, VersionsOf, Can, After, Goes;
    var w := Play(sc, ms);
    var s := Now(sc, w);
    PriorIsSeen(w.reg, sc.partOf(a));
    CanList(sc, w, p, a);
    PlayOn(sc, ms, List(p));
    var m1 := ms + [List(p)];
    var w1 := Play(sc, m1);
    var ctx := PolicyAllows(sc.c, s, p, a);
    Judges(sc.c, s, p, Reacting([]), a, ctx);
    CanJudge(sc, w1, p, a, ctx);
    RunAppend(sc.c, sc.now, w.es, Judge(p, ctx, true));
    PlayOn(sc, m1, Protocol(Judge(p, ctx, true)));
    ms' := m1 + [Protocol(Judge(p, ctx, true))];
  }

  /** Process `p` rests, and the target of `a` is free. */
  ghost predicate Fit(sc: Scene, s: State, p: Pid, a: Action) {
    p in s.procs && s.procs[p] == Proc(Resting, Free) && !s.paused && sc.c.lockKey(a.target) !in s.locks && |s.rows| < RATE_LIMIT
  }

  /** The tick begins, and the recovery agent's bid wins. */
  lemma Wins(sc: Scene, ms: seq<Move>, p: Pid, a: Action) returns (ms': seq<Move>)
    requires Ready(sc.c, p, a) && Fit(sc, Now(sc, Play(sc, ms)), p, a)
    ensures var s := Now(sc, Play(sc, ms));
            Goes(s, Now(sc, Play(sc, ms')), p, Proc(Reacting([a]), Free), s.locks, s.rows, s.approvals)
    ensures SameRegistry(Play(sc, ms), Play(sc, ms'))
  {
    hide Now, Play, Step, Enabled;
    Starts(sc.c, Now(sc, Play(sc, ms)), p, []);
    var m1 := Do(sc, ms, StartTick(p, []));
    Reacts(sc.c, Now(sc, Play(sc, m1)), p, a);
    ms' := Do(sc, m1, React(p, [a]));
  }

  /** A tick up to the passed cap check. */
  lemma Clears(sc: Scene, ms: seq<Move>, p: Pid, a: Action) returns (ms': seq<Move>)
    requires Ready(sc.c, p, a) && Fit(sc, Now(sc, Play(sc, ms)), p, a)
    ensures var s := Now(sc, Play(sc, ms));
            Goes(s, Now(sc, Play(sc, ms')), p, Proc(Reacting([]), Cleared(a)), s.locks[sc.c.lockKey(a.target) := p], s.rows, s.approvals)
    ensures SameRegistry(Play(sc, ms), Play(sc, ms'))
  {
    hide Now, Play, Step, Enabled;
    var m1 := Wins(sc, ms, p, a);
    Locks(sc.c, Now(sc, Play(sc, m1)), p, Reacting([a]), a);
    var m2 := Do(sc, m1, Attempt(p));
    Checks(sc.c, Now(sc, Play(sc, m2)), p, Reacting([]), a);
    ms' := Do(sc, m2, CheckCap(p));
  }

  /** A tick up to the written intent, the gate seeing a prior version. */
  lemma Intends(sc: Scene, ms: seq<Move>, p: Pid, a: Action) returns (ms': seq<Move>)
    requires Ready(sc.c, p, a) && PriorVersion(Play(sc, ms).reg, sc.partOf(a)) && Fit(sc, Now(sc, Play(sc, ms)), p, a)
    ensures var s := Now(sc, Play(sc, ms));
            Goes(s, Now(sc, Play(sc, ms')), p, Proc(Reacting([]), Logged(a, GO, |s.rows|)), s.locks[sc.c.lockKey(a.target) := p],
                 s.rows + [Row(sc.c.runOf(p), a, Allowed, false, Executing, s.now)], s.approvals)
    ensures SameRegistry(Play(sc, ms), Play(sc, ms'))
  {
    hide Now, Play, Step, Enabled, PriorVersion;
    var m1 := Clears(sc, ms, p, a);
    var m2 := Allows(sc, m1, p, a);
    Writes(sc.c, Now(sc, Play(sc, m2)), p, Reacting([]), a);
    ms' := Do(sc, m2, WriteAhead(p));
  }

  lemma PriorAtStart(reg: P.Registry, q: P.Part, v: nat, u: nat)
    requires P.IsActive(reg, q, v) && P.RollsBackTo(reg, q, Some(v), Some(u))
    ensures PriorVersion(reg, q)
  {
    assert P.Active(reg, q, Some(v)) && P.Slot(q, u) in reg;
  }

  /** Version `v` is active and `u` is what a rollback picks. */
  ghost predicate Stacked(reg: P.Registry, q: P.Part, v: nat, u: nat) {
    P.OneActive(reg) && P.IsActive(reg, q, v) && P.RollsBackTo(reg, q, Some(v), Some(u))
  }

  lemma StackedMeans(reg: P.Registry, q: P.Part, v: nat, u: nat)
    requires Stacked(reg, q, v, u)
    ensures P.Active(reg, q, Some(v)) && P.Slot(q, u) in reg && u < v && PriorVersion(reg, q)
  {
    PriorAtStart(reg, q, v, u);
  }

  /** After the flip to `u`: it is active, and a rollback from there finds something exactly when a version is below. */
  lemma AfterFlip(reg: P.Registry, q: P.Part, u: nat)
    requires P.Slot(q, u) in reg
    ensures var after := P.Flip(reg, q, u);
            && P.IsActive(after, q, u) && P.Active(after, q, Some(u)) && P.OneActive(reg) ==> P.OneActive(after)
    ensures var after := P.Flip(reg, q, u);
            && P.Active(after, q, Some(u)) && P.Flip(after, q, u) == after
            && (PriorVersion(after, q) <==> exists w: nat :: P.Slot(q, w) in reg && w < u)
            && (PriorVersion(after, q) || P.RollsBackTo(after, q, Some(u), None))
  {
    var after := P.Flip(reg, q, u);
    assert P.IsActive(after, q, u);
    forall cur: Option<nat> | P.Active(after, q, cur) ensures cur == Some(u) {}
    if w: nat :| P.Slot(q, w) in reg && w < u {
      assert P.Slot(q, w) in after && P.HasPriorVersion(after, q, Some(u));
    }
  }

  /** The flip from `v` to `u`, and the same flip again. */
  lemma FirstFlip(reg: P.Registry, q: P.Part, v: nat, u: nat)
    requires Stacked(reg, q, v, u)
    ensures P.Active(reg, q, Some(v)) && PriorVersion(reg, q)
    ensures var after := P.Flip(reg, q, u);
            && after != reg && P.Active(after, q, Some(u)) && P.Flip(after, q, u) == after
            && (PriorVersion(after, q) <==> exists w: nat :: P.Slot(q, w) in reg && w < u)
            && (PriorVersion(after, q) || P.RollsBackTo(after, q, Some(u), None))
  {
    StackedMeans(reg, q, v, u);
    AfterFlip(reg, q, u);
    FlipChangesIff(reg, q, u);
    assert !P.IsActive(reg, q, u);
  }

  // --- Two rollbacks in turn --------------------------------------------------------------------

  /** Between ticks, with `n` rows, these approvals, no effect and no rollback under way. */
  ghost predicate Between(sc: Scene, w: World, p: Pid, n: nat, approvals: seq<Approval>) {
    var s := Now(sc, w);
    && p in s.procs && s.procs[p] == Proc(Resting, Free) && !s.paused && s.locks == map[]
    && |s.rows| == n && s.approvals == approvals && s.effects == [] && w.flights == map[] && w.reg == sc.reg
  }

  lemma NotActing(sc: Scene, w: World, p: Pid, a: Action, row: nat)
    requires Ready(sc.c, p, a) && EffectiveMode(sc.c, Rollback) == NeedsApproval && w.flights == map[]
    requires Now(sc, w).procs[p] == Proc(Reacting([]), Logged(a, GO, row)) && Enabled(sc.c, Now(sc, w), Execute(p, Succeeds(false)))
    ensures var e := Execute(p, Succeeds(false));
            Can(sc, w, Protocol(e)) && After(sc, w, Protocol(e)).es == w.es + [e] && SameRegistry(w, After(sc, w, Protocol(e)))
  {
    assert Acting(sc.c, Now(sc, w), OfLoop(p)).None?;
    hide Run, Enabled;
  }

  /** The executor queues the rollback instead of running it. */
  lemma GetsQueued(sc: Scene, ms: seq<Move>, p: Pid, a: Action, row: nat) returns (ms': seq<Move>)
    requires Ready(sc.c, p, a) && EffectiveMode(sc.c, Rollback) == NeedsApproval
    requires Now(sc, Play(sc, ms)).procs[p] == Proc(Reacting([]), Logged(a, GO, row)) && Play(sc, ms).flights == map[]
    ensures var s := Now(sc, Play(sc, ms));
            Goes(s, Now(sc, Play(sc, ms')), p, Proc(Reacting([]), Performed(a, GO, row, false)), s.locks, s.rows,
                 s.approvals + [Approval(sc.c.runOf(p), a, row, Pending)])
    ensures SameRegistry(Play(sc, ms), Play(sc, ms'))
  {
    var w, e := Play(sc, ms), Execute(p, Succeeds(false));
    Submits(sc.c, Now(sc, w), p, Reacting([]), a, row, Succeeds(false));
    NotActing(sc, w, p, a, row);
    ms' := ms + [Protocol(e)];
    RunAppend(sc.c, sc.now, w.es, e);
    hide *;
    PlayOn(sc, ms, Protocol(e));
  }

  /** The outcome is recorded, the lock given back and the tick ended. */
  lemma Closes(sc: Scene, ms: seq<Move>, p: Pid, a: Action, row: nat) returns (ms': seq<Move>)
    requires p in sc.c.procs
    requires var s := Now(sc, Play(sc, ms));
             s.procs[p] == Proc(Reacting([]), Performed(a, GO, row, false)) && row < |s.rows|
    ensures var s, t := Now(sc, Play(sc, ms)), Now(sc, Play(sc, ms'));
            |t.rows| == |s.rows| && Goes(s, t, p, Proc(Resting, Free), s.locks - {sc.c.lockKey(a.target)}, t.rows, s.approvals)
    ensures SameRegistry(Play(sc, ms), Play(sc, ms'))
  {
    hide Now, Play, Step, Enabled;
    Records(sc.c, Now(sc, Play(sc, ms)), p, Reacting([]), a, row, false);
    var m1 := Do(sc, ms, Record(p));
    Releases(sc.c, Now(sc, Play(sc, m1)), p, Reacting([]), a);
    var m2 := Do(sc, m1, Release(p));
    Ends(sc.c, Now(sc, Play(sc, m2)), p);
    ms' := Do(sc, m2, EndTick(p));
  }

  /** A whole tick queues one more rollback. */
  lemma TickQueues(sc: Scene, ms: seq<Move>, p: Pid, a: Action, n: nat, approvals: seq<Approval>) returns (ms': seq<Move>)
    requires Ready(sc.c, p, a) && EffectiveMode(sc.c, Rollback) == NeedsApproval
    requires PriorVersion(sc.reg, sc.partOf(a)) && n < RATE_LIMIT && Between(sc, Play(sc, ms), p, n, approvals)
    ensures Between(sc, Play(sc, ms'), p, n + 1, approvals + [Approval(sc.c.runOf(p), a, n, Pending)])
  {
    hide Now, Play, PriorVersion, Ready, EffectiveMode;
    assert p in sc.c.procs by { assert p in Now(sc, Play(sc, ms)).procs; }
    var m1 := Intends(sc, ms, p, a);
    var m2 := GetsQueued(sc, m1, p, a, n);
    ms' := Closes(sc, m2, p, a, n);
    assert map[sc.c.lockKey(a.target) := p] - {sc.c.lockKey(a.target)} == map[];
  }

  /** Both rollbacks are proposed, allowed and queued while the same version is active. */
  lemma BothQueued(sc: Scene, p: Pid, a: Action) returns (ms: seq<Move>)
    requires Ready(sc.c, p, a) && EffectiveMode(sc.c, Rollback) == NeedsApproval && PriorVersion(sc.reg, sc.partOf(a))
    ensures Between(sc, Play(sc, ms), p, 2, [Approval(sc.c.runOf(p), a, 0, Pending)] + [Approval(sc.c.runOf(p), a, 1, Pending)])
  {
    assert Between(sc, Play(sc, []), p, 0, []);
    hide *;
    var m1 := TickQueues(sc, [], p, a, 0, []);
    ms := TickQueues(sc, m1, p, a, 1, [Approval(sc.c.runOf(p), a, 0, Pending)]);
    assert [] + [Approval(sc.c.runOf(p), a, 0, Pending)] == [Approval(sc.c.runOf(p), a, 0, Pending)];
  }

  /** What approving a rollback does to the protocol's state. */
  lemma Approved(c: Config, s: State, id: nat, changed: bool)
    requires WellFormed(c, s) && id < |s.approvals| && s.approvals[id].status == Pending
    requires s.approvals[id].action.kind == Rollback && s.approvals[id].action.target != s.approvals[id].run
    ensures var t := Step(c, s, Approve(id, Succeeds(changed)));
            && Acting(c, s, OfApproval(id)) == Some(s.approvals[id].action)
            && t.approvals == s.approvals[id := s.approvals[id].(status := ApprovalExecuted)]
            && t.effects == s.effects + if changed then [Effect(ByApproval(id), s.approvals[id].action, |s.rows|)] else []
  {}

  /** An approver takes a rollback from its look to its end with nobody in between. */
  lemma ApproveRuns(sc: Scene, ms: seq<Move>, id: nat, cur: Option<nat>, to: Option<nat>) returns (ms': seq<Move>)
    requires var w := Play(sc, ms);
             var s := Now(sc, w);
             && id < |s.approvals| && s.approvals[id].status == Pending && w.flights == map[]
             && s.approvals[id].action.kind == Rollback && s.approvals[id].action.target != s.approvals[id].run
             && P.Active(w.reg, sc.partOf(s.approvals[id].action), cur)
             && P.RollsBackTo(w.reg, sc.partOf(s.approvals[id].action), cur, to)
    ensures var w, w' := Play(sc, ms), Play(sc, ms');
            var s, t := Now(sc, w), Now(sc, w');
            && w'.flights == map[] && w'.reg == Flipped(w.reg, sc.partOf(s.approvals[id].action), to)
            && t.approvals == s.approvals[id := s.approvals[id].(status := ApprovalExecuted)]
            && t.effects == s.effects + if w'.reg != w.reg then [Effect(ByApproval(id), s.approvals[id].action, |s.rows|)] else []
  {
    var h, s := OfApproval(id), Now(sc, Play(sc, ms));
    Approved(sc.c, s, id, true);
    hide Run, Play, Step, Enabled, Acting, P.Active, P.RollsBackTo, Flipped, Can;
    var m1 := Reads(sc, ms, h, cur, to);
    ms' := Finishes(sc, m1, h);
    Approved(sc.c, s, id, Play(sc, ms').reg != Play(sc, ms).reg);
  }

  /** Two rollbacks that the gate both allowed on seeing a prior version: approved in turn, both end as
      executed, the first moves to the lowest version, the second changes nothing. */
  lemma ExecutedWithoutEffect(sc: Scene, p: Pid, a: Action, v: nat, u: nat) returns (ms: seq<Move>)
    requires Ready(sc.c, p, a) && EffectiveMode(sc.c, Rollback) == NeedsApproval
    requires Stacked(sc.reg, sc.partOf(a), v, u) && forall w: nat :: P.Slot(sc.partOf(a), w) in sc.reg ==> w >= u
    ensures var s, w := Now(sc, Play(sc, ms)), Play(sc, ms);
            && |s.approvals| == 2 && s.approvals[0].status == ApprovalExecuted && s.approvals[1].status == ApprovalExecuted
            && |s.effects| == 1 && s.effects[0].source == ByApproval(0)
            && w.reg == P.Flip(sc.reg, sc.partOf(a), u)
  {
    var q := sc.partOf(a);
    FirstFlip(sc.reg, q, v, u);
    assert P.RollsBackTo(sc.reg, q, Some(v), Some(u));
    hide Play, Now, P.Active, P.RollsBackTo, P.Flip, PriorVersion, Stacked, Ready, EffectiveMode;
    var m0 := BothQueued(sc, p, a);
    var m1 := ApproveRuns(sc, m0, 0, Some(v), Some(u));
    ms := ApproveRuns(sc, m1, 1, Some(u), None);
  }

  // --- Two rollbacks at once --------------------------------------------------------------------

  /** What executing a rollback does to the protocol's state. */
  lemma Executed(c: Config, s: State, p: Pid, a: Action, row: nat, changed: bool)
    requires WellFormed(c, s) && Ready(c, p, a) && EffectiveMode(c, Rollback) == Autonomous
    requires s.procs[p] == Proc(Reacting([]), Logged(a, GO, row))
    ensures var t := Step(c, s, Execute(p, Succeeds(changed)));
            && Acting(c, s, OfLoop(p)) == Some(a)
            && t.procs == s.procs[p := Proc(Reacting([]), Performed(a, GO, row, true))] && t.rows == s.rows
            && t.effects == s.effects + if changed then [Effect(ByLoop(row), a, |s.rows|)] else []
  {}

  /** The loop's handler looks and lists with nobody in between. */
  lemma LoopReads(sc: Scene, ms: seq<Move>, p: Pid, a: Action, row: nat, v: nat, u: nat) returns (ms': seq<Move>)
    requires Ready(sc.c, p, a) && EffectiveMode(sc.c, Rollback) == Autonomous
    requires Now(sc, Play(sc, ms)).procs[p] == Proc(Reacting([]), Logged(a, GO, row)) && OfLoop(p) !in Play(sc, ms).flights
    requires P.Active(Play(sc, ms).reg, sc.partOf(a), Some(v)) && P.RollsBackTo(Play(sc, ms).reg, sc.partOf(a), Some(v), Some(u))
    ensures var w := Play(sc, ms);
            Play(sc, ms') == w.(flights := w.flights[OfLoop(p) := Picked(Some(v), Some(u), w.reg, w.reg)])
  {
    Executed(sc.c, Now(sc, Play(sc, ms)), p, a, row, true);
    hide Run, Play, Step, Acting, P.Active, P.RollsBackTo;
    ms' := Reads(sc, ms, OfLoop(p), Some(v), Some(u));
  }

  /** The loop's handler flips to what it picked. */
  lemma LoopFlips(sc: Scene, ms: seq<Move>, p: Pid, a: Action, row: nat, u: nat) returns (ms': seq<Move>)
    requires Ready(sc.c, p, a) && EffectiveMode(sc.c, Rollback) == Autonomous
    requires var w := Play(sc, ms);
             && Now(sc, w).procs[p] == Proc(Reacting([]), Logged(a, GO, row))
             && OfLoop(p) in w.flights && w.flights[OfLoop(p)].Picked? && w.flights[OfLoop(p)].to == Some(u)
    ensures var w, w' := Play(sc, ms), Play(sc, ms');
            var s, t := Now(sc, w), Now(sc, w');
            && w'.reg == P.Flip(w.reg, sc.partOf(a), u) && w'.flights == w.flights - {OfLoop(p)}
            && t.procs == s.procs[p := Proc(Reacting([]), Performed(a, GO, row, true))] && t.rows == s.rows
            && RollsBack(sc, w, OfLoop(p)) && PartOf(sc, w, OfLoop(p)) == sc.partOf(a)
            && t.effects == s.effects + if w'.reg != w.reg then [Effect(ByLoop(row), a, |s.rows|)] else []
    ensures |ms'| == |ms| + 1 && ms'[..|ms|] == ms && ms'[|ms|].Protocol? && HandlerOf(ms'[|ms|].e) == Some(OfLoop(p))
            && Can(sc, Play(sc, ms), ms'[|ms|])
  {
    var w := Play(sc, ms);
    Executed(sc.c, Now(sc, w), p, a, row, true);
    hide Run, Play, Step, Enabled, Acting, P.Flip, Can, Ready;
    ms' := Finishes(sc, ms, OfLoop(p));
    Executed(sc.c, Now(sc, w), p, a, row, Play(sc, ms').reg != w.reg);
  }

  lemma AtStart(sc: Scene, p: Pid, a: Action)
    requires Ready(sc.c, p, a)
    ensures var w := Play(sc, []);
            && w.reg == sc.reg && w.flights == map[] && Fit(sc, Now(sc, w), p, a)
            && Now(sc, w) == Init(sc.c, sc.now)
  {}

  /** Both loops wrote their intent; nothing has run yet. */
  ghost predicate BothLogged(sc: Scene, w: World, p: Pid, a: Action, p2: Pid, b: Action) {
    var s := Now(sc, w);
    && p in s.procs && s.procs[p] == Proc(Reacting([]), Logged(a, GO, 0))
    && p2 in s.procs && s.procs[p2] == Proc(Reacting([]), Logged(b, GO, 1))
    && |s.rows| == 2 && s.rows[0].action == a && s.rows[1].action == b && s.effects == [] && w.reg == sc.reg
  }

  lemma BothIntend(sc: Scene, p: Pid, a: Action, p2: Pid, b: Action) returns (ms: seq<Move>)
    requires Ready(sc.c, p, a) && Ready(sc.c, p2, b) && PriorVersion(sc.reg, sc.partOf(a))
    requires p != p2 && sc.partOf(a) == sc.partOf(b) && sc.c.lockKey(a.target) != sc.c.lockKey(b.target)
    ensures BothLogged(sc, Play(sc, ms), p, a, p2, b) && Play(sc, ms).flights == map[]
  {
    AtStart(sc, p, a);
    AtStart(sc, p2, b);
    ReadyMeans(sc.c, p, a);
    ReadyMeans(sc.c, p2, b);
    hide Run, Now, Play, PriorVersion, Ready;
    var m1 := Intends(sc, [], p, a);
    ms := Intends(sc, m1, p2, b);
  }

  /** Then both read, and pick the same version. */
  lemma BothPicked(sc: Scene, p: Pid, a: Action, p2: Pid, b: Action, v: nat, u: nat) returns (ms: seq<Move>)
    requires Ready(sc.c, p, a) && Ready(sc.c, p2, b) && EffectiveMode(sc.c, Rollback) == Autonomous
    requires p != p2 && sc.partOf(a) == sc.partOf(b) && sc.c.lockKey(a.target) != sc.c.lockKey(b.target)
    requires Stacked(sc.reg, sc.partOf(a), v, u)
    ensures var w := Play(sc, ms);
            && BothLogged(sc, w, p, a, p2, b)
            && OfLoop(p) in w.flights && w.flights[OfLoop(p)] == Picked(Some(v), Some(u), sc.reg, sc.reg)
            && OfLoop(p2) in w.flights && w.flights[OfLoop(p2)] == Picked(Some(v), Some(u), sc.reg, sc.reg)
  {
    StackedMeans(sc.reg, sc.partOf(a), v, u);
    hide Run, Now, Play, P.Active, P.RollsBackTo, PriorVersion, Ready, EffectiveMode;
    var m1 := BothIntend(sc, p, a, p2, b);
    var m2 := LoopReads(sc, m1, p, a, 0, v, u);
    NowIsOfSteps(sc, Play(sc, m1), Play(sc, m2));
    ms := LoopReads(sc, m2, p2, b, 1, v, u);
    NowIsOfSteps(sc, Play(sc, m2), Play(sc, ms));
  }

  lemma NowIsOfSteps(sc: Scene, w: World, w': World)
    requires w.es == w'.es
    ensures Now(sc, w) == Now(sc, w')
  {}

  lemma RecordsBoth(sc: Scene, ms: seq<Move>, p: Pid, a: Action, p2: Pid, b: Action) returns (ms': seq<Move>)
    requires p in sc.c.procs && p2 in sc.c.procs && p != p2
    requires var s := Now(sc, Play(sc, ms));
             && |s.rows| == 2 && s.procs[p] == Proc(Reacting([]), Performed(a, GO, 0, true))
             && s.procs[p2] == Proc(Reacting([]), Performed(b, GO, 1, true))
    ensures SameRegistry(Play(sc, ms), Play(sc, ms'))
    ensures var s, t := Now(sc, Play(sc, ms)), Now(sc, Play(sc, ms'));
            && t.effects == s.effects && |t.rows| == 2 && t.rows[0].executed && t.rows[1].executed
            && t.rows[0].action == s.rows[0].action && t.rows[1].action == s.rows[1].action
  {
    hide Now, Play, Step, Enabled;
    Records(sc.c, Now(sc, Play(sc, ms)), p, Reacting([]), a, 0, true);
    var m1 := Do(sc, ms, Record(p));
    Records(sc.c, Now(sc, Play(sc, m1)), p2, Reacting([]), b, 1, true);
    ms' := Do(sc, m1, Record(p2));
  }

  /** Two loops roll one partition back under different locks: both read before either flips, both rows end
      as executed, and only one of them changed anything, although the gate would say yes at every moment. */
  lemma RaceLosesARollback(sc: Scene, p: Pid, a: Action, p2: Pid, b: Action, v: nat, u: nat, low: nat) returns (ms: seq<Move>)
    requires Ready(sc.c, p, a) && Ready(sc.c, p2, b) && EffectiveMode(sc.c, Rollback) == Autonomous
    requires p != p2 && sc.partOf(a) == sc.partOf(b) && sc.c.lockKey(a.target) != sc.c.lockKey(b.target)
    requires Stacked(sc.reg, sc.partOf(a), v, u) && P.Slot(sc.partOf(a), low) in sc.reg && low < u
    ensures var w, q := Play(sc, ms), sc.partOf(a);
            var s := Now(sc, w);
            && |s.rows| == 2 && s.rows[0].executed && s.rows[0].action == a && s.rows[1].executed && s.rows[1].action == b
            && |s.effects| == 1 && s.effects[0].source == ByLoop(0)
            && w.reg == P.Flip(sc.reg, q, u) && PriorVersion(sc.reg, q) && PriorVersion(w.reg, q)
  {
    var q := sc.partOf(a);
    FirstFlip(sc.reg, q, v, u);
    assert p in sc.c.procs && p2 in sc.c.procs;
    hide Run, Now, Play, P.Active, P.RollsBackTo, P.Flip, PriorVersion, Stacked, Can, Ready, EffectiveMode, RollsBack, PartOf;
    var m0 := BothPicked(sc, p, a, p2, b, v, u);
    var m1 := LoopFlips(sc, m0, p, a, 0, u);
    var m2 := LoopFlips(sc, m1, p2, b, 1, u);
    ms := RecordsBoth(sc, m2, p, a, p2, b);
  }

  // --- A flip the gate would not allow ----------------------------------------------------------

  /** Process `p` picked `u`, and then somebody activated the lowest version. */
  ghost predicate Overtaken(sc: Scene, w: World, p: Pid, a: Action, u: nat, low: nat) {
    && p in sc.c.procs && Now(sc, w).procs[p] == Proc(Reacting([]), Logged(a, GO, 0)) && w.reg == P.Flip(sc.reg, sc.partOf(a), low)
    && OfLoop(p) in w.flights && w.flights[OfLoop(p)].Picked? && w.flights[OfLoop(p)].to == Some(u)
  }

  lemma OvertakenMeans(sc: Scene, w: World, p: Pid, a: Action, u: nat, low: nat)
    requires Overtaken(sc, w, p, a, u, low)
    ensures p in Now(sc, w).procs && Now(sc, w).procs[p] == Proc(Reacting([]), Logged(a, GO, 0))
    ensures w.reg == P.Flip(sc.reg, sc.partOf(a), low)
    ensures OfLoop(p) in w.flights && w.flights[OfLoop(p)].Picked? && w.flights[OfLoop(p)].to == Some(u)
  {}

  lemma PicksThenOvertaken(sc: Scene, p: Pid, a: Action, v: nat, u: nat, low: nat) returns (ms: seq<Move>)
    requires Ready(sc.c, p, a) && EffectiveMode(sc.c, Rollback) == Autonomous && Stacked(sc.reg, sc.partOf(a), v, u)
    ensures Overtaken(sc, Play(sc, ms), p, a, u, low)
  {
    StackedMeans(sc.reg, sc.partOf(a), v, u);
    AtStart(sc, p, a);
    hide Run, Now, Play, P.Active, P.RollsBackTo, P.Flip, PriorVersion, Stacked, Fit, Ready, EffectiveMode;
    assert p in sc.c.procs by { ReadyMeans(sc.c, p, a); }
    var m1 := Intends(sc, [], p, a);
    var m2 := LoopReads(sc, m1, p, a, 0, v, u);
    NowIsOfSteps(sc, Play(sc, m1), Play(sc, m2));
    ms := m2 + [Activate(sc.partOf(a), low)];
    Activates(sc, m2, sc.partOf(a), low);
    NowIsOfSteps(sc, Play(sc, m2), Play(sc, ms));
  }

  lemma ReadyMeans(c: Config, p: Pid, a: Action)
    requires Ready(c, p, a)
    ensures p in c.procs
  {}

  /** Between its pick and its flip somebody activates the lowest version: the gate would now say no, and the
      rollback still moves the pointer, upwards. */
  lemma FlipAgainstTheGate(sc: Scene, p: Pid, a: Action, v: nat, u: nat, low: nat) returns (ms: seq<Move>, e: Event)
    requires Ready(sc.c, p, a) && EffectiveMode(sc.c, Rollback) == Autonomous
    requires Stacked(sc.reg, sc.partOf(a), v, u) && P.Slot(sc.partOf(a), low) in sc.reg && low < u
    requires forall w: nat :: P.Slot(sc.partOf(a), w) in sc.reg ==> w >= low
    ensures Can(sc, Play(sc, ms), Protocol(e)) && HandlerOf(e) == Some(OfLoop(p)) && RollsBack(sc, Play(sc, ms), OfLoop(p))
    ensures var w := Play(sc, ms);
            var w' := After(sc, w, Protocol(e));
            && !PriorVersion(w.reg, sc.partOf(a)) && P.IsActive(w.reg, sc.partOf(a), low)
            && P.IsActive(w'.reg, sc.partOf(a), u) && Now(sc, w').effects != Now(sc, w).effects
  {
    Lowered(sc.reg, sc.partOf(a), v, u, low);
    ms := PicksThenOvertaken(sc, p, a, v, u, low);
    OvertakenMeans(sc, Play(sc, ms), p, a, u, low);
    hide *;
    var done := LoopFlips(sc, ms, p, a, 0, u);
    e := done[|ms|].e;
    assert done[|ms|] == Protocol(e) && done == ms + [Protocol(e)];
    PlayOn(sc, ms, Protocol(e));
  }

  /** Activating the lowest version under a rollback that picked `u`. */
  lemma Lowered(reg: P.Registry, q: P.Part, v: nat, u: nat, low: nat)
    requires Stacked(reg, q, v, u) && P.Slot(q, low) in reg && low < u && forall w: nat :: P.Slot(q, w) in reg ==> w >= low
    ensures P.Active(reg, q, Some(v)) && P.RollsBackTo(reg, q, Some(v), Some(u)) && PriorVersion(reg, q)
    ensures var lowered := P.Flip(reg, q, low);
            && !PriorVersion(lowered, q) && P.IsActive(lowered, q, low)
            && P.IsActive(P.Flip(lowered, q, u), q, u) && P.Flip(lowered, q, u) != lowered
  {
    StackedMeans(reg, q, v, u);
    AfterFlip(reg, q, low);
    var lowered := P.Flip(reg, q, low);
    assert P.Flip(lowered, q, u)[P.Slot(q, u)] && !lowered[P.Slot(q, u)];
  }

  lemma Activates(sc: Scene, ms: seq<Move>, q: P.Part, v: nat)
    ensures Play(sc, ms + [Activate(q, v)]) == Play(sc, ms).(reg := P.Flip(Play(sc, ms).reg, q, v))
  {
    PlayOn(sc, ms, Activate(q, v));
  }
}
