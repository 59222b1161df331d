/** The code of one loop process on the tables it shares with others. Each call states what it leaves
    behind when nobody interleaves; that is where a run of the protocol leads, so whatever holds of every
    run holds of it. */
module LoopProcess {
  import opened Actions
  import opened Tally
  import opened GovernedLoop
  import GovernedAudit

  // --- Runs from a state ------------------------------------------------------------------------

  /** Events from a state; one that is not enabled when its turn comes does nothing. */
  function Play(c: Config, s: State, es: seq<Event>): (r: State)
    requires WellFormed(c, s)
    ensures WellFormed(c, r)
  {
    if es == [] then s
    else
      var t := Play(c, s, es[..|es| - 1]);
      if Enabled(c, t, es[|es| - 1]) then Step(c, t, es[|es| - 1]) else t
  }

  lemma PlayOne(c: Config, s: State, es: seq<Event>, e: Event)
    requires WellFormed(c, s)
    ensures var t := Play(c, s, es);
            Play(c, s, es + [e]) == if Enabled(c, t, e) then Step(c, t, e) else t
  {
    assert (es + [e])[..|es|] == es;
  }

  lemma PlayNone(c: Config, s: State)
    requires WellFormed(c, s)
    ensures Play(c, s, []) == s
  {}

  lemma PlayIgnored(c: Config, s: State, e: Event)
    requires WellFormed(c, s) && !Enabled(c, s, e)
    ensures Play(c, s, [e]) == s
  {
    PlayOne(c, s, [], e);
    assert [] + [e] == [e];
  }

  lemma PlayFirst(c: Config, s: State, e: Event)
    requires WellFormed(c, s) && Enabled(c, s, e)
    ensures Play(c, s, [e]) == Step(c, s, e)
  {
    PlayOne(c, s, [], e);
    assert [] + [e] == [e];
  }

  lemma PlayTwo(c: Config, s: State, e: Event, t: State, f: Event)
    requires WellFormed(c, s) && Enabled(c, s, e) && t == Step(c, s, e) && Enabled(c, t, f)
    ensures Play(c, s, [e, f]) == Step(c, t, f)
  {
    PlayFirst(c, s, e);
    PlayOne(c, s, [e], f);
    assert [e] + [f] == [e, f];
  }

  /** Playing on from a reachable state stays within the runs of the protocol. */
  lemma {:induction false} PlayExtendsRun(c: Config, now: int, before: seq<Event>, es: seq<Event>)
    ensures Play(c, Run(c, now, before), es) == Run(c, now, before + es)
  {
    PlayNone(c, Run(c, now, before));
    hide Run, Play, Enabled, Step;
    if es == [] {
      assert before + es == before;
    } else {
      var front, e := es[..|es| - 1], es[|es| - 1];
      PlayExtendsRun(c, now, before, front);
      assert es == front + [e] && before + es == (before + front) + [e];
      PlayOne(c, Run(c, now, before), front, e);
      RunAppend(c, now, before + front, e);
    }
  }

  lemma {:induction false} PlayConcat(c: Config, s: State, a: seq<Event>, b: seq<Event>)
    requires WellFormed(c, s)
    ensures Play(c, s, a + b) == Play(c, Play(c, s, a), b)
  {
    PlayNone(c, Play(c, s, a));
    hide Play, Enabled, Step;
    if b == [] {
      assert a + b == a;
    } else {
      var front, e := b[..|b| - 1], b[|b| - 1];
      PlayConcat(c, s, a, front);
      assert b == front + [e] && a + b == (a + front) + [e];
      PlayOne(c, s, a + front, e);
      PlayOne(c, Play(c, s, a), front, e);
    }
  }

  // --- The tables -------------------------------------------------------------------------------

  method CountRows(rows: seq<Row>, p: Row -> bool) returns (n: nat)
    ensures n == Count(rows, p)
  {
    n := 0;
    for i := 0 to |rows|
      invariant n == Count(rows[..i], p)
    {
      assert rows[..i + 1][..i] == rows[..i];
      if p(rows[i]) { n := n + 1; }
    }
    assert rows[..|rows|] == rows;
  }

  /** The shared database and lock table. The ghost fields say where each process is. */
  class Tables {
    const c: Config
    var now: int
    var rows: seq<Row>
    var approvals: seq<Approval>
    var effects: seq<Effect>
    var locks: map<int, Pid>
    var paused: bool
    ghost var procs: map<Pid, Proc>
    ghost var attempts: map<Pid, nat>
    ghost var abandoned: set<nat>

    ghost function Now(): State
      reads this
    {
      State(now, rows, approvals, effects, locks, procs, paused, attempts, abandoned)
    }

    constructor (c: Config, now: int)
      ensures this.c == c && Now() == Init(c, now)
    {
      this.c, this.now := c, now;
      rows, approvals, effects, locks, paused, abandoned := [], [], [], map[], false, {};
      procs := map p | p in c.procs :: Proc(Resting, Free);
      attempts := map p | p in c.procs :: 0;
    }

    /** Decide a pending approval by running its action; anything not pending is left alone. */
    method Approve(id: nat, res: HandlerResult) returns (found: bool)
      modifies this`approvals, this`effects
      ensures found == (id < |old(approvals)| && old(approvals)[id].status == Pending)
      ensures !found ==> approvals == old(approvals) && effects == old(effects)
      ensures found ==>
                var q := old(approvals)[id];
                var out := ApplyAction(q.action, q.run, res);
                && approvals == old(approvals)[id := q.(status := if out.executed then ApprovalExecuted else ApprovalFailed)]
                && effects == old(effects) + if out.touched then [Effect(ByApproval(id), q.action, |rows|)] else []
    {
      if id >= |approvals| || approvals[id].status != Pending { return false; }
      var q := approvals[id];
      var out := ApplyAction(q.action, q.run, res);
      if out.touched { effects := effects + [Effect(ByApproval(id), q.action, |rows|)]; }
      approvals := approvals[id := q.(status := if out.executed then ApprovalExecuted else ApprovalFailed)];
      found := true;
    }

    method Reject(id: nat) returns (found: bool)
      modifies this`approvals
      ensures found == (id < |old(approvals)| && old(approvals)[id].status == Pending)
      ensures approvals == if found then old(approvals)[id := old(approvals)[id].(status := Rejected)] else old(approvals)
    {
      if id >= |approvals| || approvals[id].status != Pending { return false; }
      approvals := approvals[id := approvals[id].(status := Rejected)];
      found := true;
    }
  }

  /** Approving is the protocol's event: what the call leaves is where the event leads, and no event is enabled otherwise. */
  lemma ApproveIsAnEvent(c: Config, s: State, id: nat, res: HandlerResult)
    requires WellFormed(c, s)
    ensures var e := Event.Approve(id, res);
            if id < |s.approvals| && s.approvals[id].status == Pending then
              var q := s.approvals[id];
              var out := ApplyAction(q.action, q.run, res);
              Play(c, s, [e])
              == s.(approvals := s.approvals[id := q.(status := if out.executed then ApprovalExecuted else ApprovalFailed)],
                    effects := s.effects + if out.touched then [Effect(ByApproval(id), q.action, |s.rows|)] else [])
            else Play(c, s, [e]) == s
  {
    var e := Event.Approve(id, res);
    if Enabled(c, s, e) { PlayFirst(c, s, e); } else { PlayIgnored(c, s, e); }
    hide Play;
    assert s.effects + [] == s.effects;
  }

  // --- What one act leaves behind ---------------------------------------------------------------

  /** What an act takes from outside: the rest of the gate's facts, whether the engine answers, how the handler ends. */
  datatype World = World(ctx: Context, reachable: bool, res: HandlerResult)

  datatype Result = TargetLocked | CapReachedFor | Acted(executed: bool)

  /** The decision an act gets in a state. */
  function DecisionIn(c: Config, s: State, p: Pid, a: Action, w: World): Decision {
    if w.reachable then c.policy(a, w.ctx.(recent := Count(s.rows, ByAgentSince(c.runOf(p), a.agent, s.now - TEN_MINUTES))))
    else FAILSAFE
  }

  /** It executes when the decision lets its handler run now and the handler succeeds. */
  predicate Executes(c: Config, p: Pid, a: Action, d: Decision, res: HandlerResult) {
    RunsNow(c, a, d) && ApplyAction(a, c.runOf(p), res).executed
  }

  /** It changes something when its handler runs now and touches something. */
  function EffectsOf(c: Config, p: Pid, a: Action, d: Decision, res: HandlerResult, row: nat): seq<Effect> {
    if RunsNow(c, a, d) && ApplyAction(a, c.runOf(p), res).touched then [Effect(ByLoop(row), a, row + 1)] else []
  }

  /** It is queued for sign-off when allowed under a mode that needs approval. */
  function QueuedBy(c: Config, p: Pid, a: Action, d: Decision, row: nat): seq<Approval> {
    if GovernedLoop.Queues(c, a, d) then [Approval(c.runOf(p), a, row, Pending)] else []
  }

  /** Its one row, already finished. */
  function FinishedRow(c: Config, p: Pid, a: Action, d: Decision, res: HandlerResult, now: int): Row {
    var ok := Executes(c, p, a, d, res);
    Row(c.runOf(p), a, RulingOf(d), ok, FinalStatus(RulingOf(d), ok), now)
  }

  function AfterAct(c: Config, s: State, p: Pid, a: Action, w: World): State
    requires p in s.procs
  {
    var d := DecisionIn(c, s, p, a, w);
    s.(rows := s.rows + [FinishedRow(c, p, a, d, w.res, s.now)],
       effects := s.effects + EffectsOf(c, p, a, d, w.res, |s.rows|),
       approvals := s.approvals + QueuedBy(c, p, a, d, |s.rows|),
       procs := s.procs[p := Proc(s.procs[p].stage, Updated(a))])
  }

  function ResultOf(c: Config, s: State, p: Pid, a: Action, w: World): Result {
    if c.lockKey(a.target) in s.locks then TargetLocked
    else if CapReached(c, s, p, a.target) then CapReachedFor
    else Acted(Executes(c, p, a, DecisionIn(c, s, p, a, w), w.res))
  }

  /** Skipped, an act leaves only that it was begun; otherwise one finished row and its consequences. Locks are as before. */
  function AfterActOn(c: Config, s: State, p: Pid, a: Action, w: World): State
    requires p in s.procs && p in s.attempts && !s.procs[p].stage.Resting? && s.procs[p].stage.queue != []
  {
    var begun := s.(attempts := s.attempts[p := s.attempts[p] + 1]);
    var done := Proc(Dequeue(s.procs[p].stage), Free);
    if ResultOf(c, s, p, a, w).Acted? then AfterAct(c, begun, p, a, w).(procs := s.procs[p := done])
    else begun.(procs := s.procs[p := done])
  }

  // --- The act is a run of the protocol ---------------------------------------------------------

  lemma AttemptIs(c: Config, s: State, p: Pid, a: Action)
    requires WellFormed(c, s) && p in c.procs && s.procs[p].phase.Free?
    requires !s.procs[p].stage.Resting? && s.procs[p].stage.queue != [] && s.procs[p].stage.queue[0] == a
    ensures Enabled(c, s, Attempt(p))
    ensures var free := c.lockKey(a.target) !in s.locks;
            Step(c, s, Attempt(p))
            == s.(locks := if free then s.locks[c.lockKey(a.target) := p] else s.locks,
                  procs := s.procs[p := Proc(Dequeue(s.procs[p].stage), if free then Holding(a) else Free)],
                  attempts := s.attempts[p := s.attempts[p] + 1])
  {}

  /** Any other step of a process leaves `attempts` alone. */
  lemma CheckIs(c: Config, s: State, p: Pid, a: Action)
    requires WellFormed(c, s) && p in c.procs && s.procs[p].phase == Holding(a)
    ensures Enabled(c, s, CheckCap(p))
    ensures var full, st := CapReached(c, s, p, a.target), s.procs[p].stage;
            Step(c, s, CheckCap(p))
            == s.(locks := if full then s.locks - {c.lockKey(a.target)} else s.locks,
                  procs := s.procs[p := Proc(st, if full then Free else Cleared(a))])
  {
    assert s.attempts[p := s.attempts[p] + 0] == s.attempts;
  }

  lemma JudgeIs(c: Config, s: State, p: Pid, a: Action, w: World) returns (e: Event)
    requires WellFormed(c, s) && p in c.procs && s.procs[p].phase == Cleared(a)
    ensures Enabled(c, s, e)
    ensures Step(c, s, e) == s.(procs := s.procs[p := Proc(s.procs[p].stage, Judged(a, DecisionIn(c, s, p, a, w)))])
  {
    e := Judge(p, w.ctx.(recent := Count(s.rows, ByAgentSince(c.runOf(p), a.agent, s.now - TEN_MINUTES))), w.reachable);
    assert s.attempts[p := s.attempts[p] + 0] == s.attempts;
  }

  lemma WriteIs(c: Config, s: State, p: Pid, a: Action, d: Decision)
    requires WellFormed(c, s) && p in c.procs && s.procs[p].phase == Judged(a, d)
    ensures Enabled(c, s, WriteAhead(p))
    ensures Step(c, s, WriteAhead(p))
            == s.(rows := s.rows + [Row(c.runOf(p), a, RulingOf(d), false, Executing, s.now)],
                  procs := s.procs[p := Proc(s.procs[p].stage, Logged(a, d, |s.rows|))])
  {
    assert s.attempts[p := s.attempts[p] + 0] == s.attempts;
  }

  lemma ExecuteIs(c: Config, s: State, p: Pid, a: Action, d: Decision, row: nat, res: HandlerResult)
    requires WellFormed(c, s) && p in c.procs && s.procs[p].phase == Logged(a, d, row) && |s.rows| == row + 1
    ensures Enabled(c, s, Event.Execute(p, res))
    ensures Step(c, s, Event.Execute(p, res))
            == s.(effects := s.effects + EffectsOf(c, p, a, d, res, row),
                  approvals := s.approvals + QueuedBy(c, p, a, d, row),
                  procs := s.procs[p := Proc(s.procs[p].stage, Performed(a, d, row, Executes(c, p, a, d, res)))])
  {
    assert s.attempts[p := s.attempts[p] + 0] == s.attempts;
    assert s.effects + [] == s.effects && s.approvals + [] == s.approvals;
    hide ApplyAction;
  }

  lemma RecordIs(c: Config, s: State, p: Pid, a: Action, d: Decision, row: nat, ok: bool)
    requires WellFormed(c, s) && p in c.procs && s.procs[p].phase == Performed(a, d, row, ok) && row < |s.rows|
    ensures Enabled(c, s, Record(p))
    ensures Step(c, s, Record(p))
            == s.(rows := s.rows[row := s.rows[row].(executed := ok, status := FinalStatus(s.rows[row].ruling, ok))],
                  procs := s.procs[p := Proc(s.procs[p].stage, Updated(a))])
  {
    assert s.attempts[p := s.attempts[p] + 0] == s.attempts;
  }

  lemma ReleaseIs(c: Config, s: State, p: Pid, a: Action)
    requires WellFormed(c, s) && p in c.procs && s.procs[p].phase == Updated(a)
    ensures Enabled(c, s, Release(p))
    ensures Step(c, s, Release(p))
            == s.(locks := s.locks - {c.lockKey(a.target)}, procs := s.procs[p := Proc(s.procs[p].stage, Free)])
  {
    assert s.attempts[p := s.attempts[p] + 0] == s.attempts;
  }

  /** Judging and writing ahead. */
  lemma IntentIsARun(c: Config, s: State, p: Pid, a: Action, w: World) returns (es: seq<Event>)
    requires WellFormed(c, s) && p in c.procs && s.procs[p].phase == Cleared(a)
    ensures var d := DecisionIn(c, s, p, a, w);
            Play(c, s, es)
            == s.(rows := s.rows + [Row(c.runOf(p), a, RulingOf(d), false, Executing, s.now)],
                  procs := s.procs[p := Proc(s.procs[p].stage, Logged(a, d, |s.rows|))])
  {
    hide Step, Play, Enabled, DecisionIn;
    var e := JudgeIs(c, s, p, a, w);
    var t := Step(c, s, e);
    WriteIs(c, t, p, a, DecisionIn(c, s, p, a, w));
    PlayTwo(c, s, e, t, WriteAhead(p));
    es := [e, WriteAhead(p)];
  }

  /** Executing and recording: together they finish the row that was written ahead. */
  lemma OutcomeIsARun(c: Config, s: State, p: Pid, a: Action, d: Decision, rows: seq<Row>, res: HandlerResult) returns (es: seq<Event>)
    requires WellFormed(c, s) && p in c.procs && s.procs[p].phase == Logged(a, d, |rows|)
    requires s.rows == rows + [Row(c.runOf(p), a, RulingOf(d), false, Executing, s.now)]
    ensures Play(c, s, es)
            == s.(rows := rows + [FinishedRow(c, p, a, d, res, s.now)],
                  effects := s.effects + EffectsOf(c, p, a, d, res, |rows|),
                  approvals := s.approvals + QueuedBy(c, p, a, d, |rows|),
                  procs := s.procs[p := Proc(s.procs[p].stage, Updated(a))])
  {
    hide Step, Play, Enabled, EffectsOf, QueuedBy, Executes, FinalStatus, RulingOf;
    var row, e := |rows|, Event.Execute(p, res);
    ExecuteIs(c, s, p, a, d, row, res);
    var t := Step(c, s, e);
    RecordIs(c, t, p, a, d, row, Executes(c, p, a, d, res));
    PlayTwo(c, s, e, t, Record(p));
    assert t.rows[row := FinishedRow(c, p, a, d, res, s.now)] == rows + [FinishedRow(c, p, a, d, res, s.now)];
    es := [e, Record(p)];
  }

  /** From the cleared check to the finished row. */
  lemma ActIsARun(c: Config, s: State, p: Pid, a: Action, w: World) returns (es: seq<Event>)
    requires WellFormed(c, s) && p in c.procs && s.procs[p].phase == Cleared(a)
    ensures Play(c, s, es) == AfterAct(c, s, p, a, w)
  {
    hide Play, EffectsOf, QueuedBy, FinishedRow, DecisionIn;
    var first := IntentIsARun(c, s, p, a, w);
    var t := Play(c, s, first);
    var second := OutcomeIsARun(c, t, p, a, DecisionIn(c, s, p, a, w), s.rows, w.res);
    PlayConcat(c, s, first, second);
    es := first + second;
  }

  lemma SameFacts(c: Config, s: State, t: State, p: Pid, a: Action, w: World)
    requires t.rows == s.rows && t.now == s.now
    ensures CapReached(c, t, p, a.target) == CapReached(c, s, p, a.target)
    ensures DecisionIn(c, t, p, a, w) == DecisionIn(c, s, p, a, w)
  {}

  /** With the lock held: the check, and either nothing more or the act, and the lock given back. */
  lemma HeldActIsARun(c: Config, s: State, p: Pid, a: Action, w: World) returns (es: seq<Event>)
    requires WellFormed(c, s) && p in c.procs && s.procs[p].phase == Holding(a)
    ensures var st, key := s.procs[p].stage, c.lockKey(a.target);
            Play(c, s, es)
            == if CapReached(c, s, p, a.target) then s.(locks := s.locks - {key}, procs := s.procs[p := Proc(st, Free)])
               else AfterAct(c, s, p, a, w).(locks := s.locks - {key}, procs := s.procs[p := Proc(st, Free)])
  {
    CheckIs(c, s, p, a);
    PlayFirst(c, s, CheckCap(p));
    var t := Step(c, s, CheckCap(p));
    SameFacts(c, s, t, p, a, w);
    hide Play, Step, Enabled, CapReached, DecisionIn, EffectsOf, QueuedBy, FinishedRow;
    es := [CheckCap(p)];
    if !CapReached(c, s, p, a.target) {
      var act := ActIsARun(c, t, p, a, w);
      PlayConcat(c, s, es, act);
      ReleaseIs(c, Play(c, s, es + act), p, a);
      PlayOne(c, s, es + act, Release(p));
      es := es + act + [Release(p)];
    }
  }

  lemma LockedOut(c: Config, s: State, p: Pid, a: Action, w: World)
    requires p in s.procs && p in s.attempts && !s.procs[p].stage.Resting? && s.procs[p].stage.queue != []
    requires c.lockKey(a.target) in s.locks
    ensures AfterActOn(c, s, p, a, w)
            == s.(procs := s.procs[p := Proc(Dequeue(s.procs[p].stage), Free)], attempts := s.attempts[p := s.attempts[p] + 1])
    ensures ResultOf(c, s, p, a, w) == TargetLocked
  {}

  /** Taking a free lock and giving it back leaves the locks as they were. */
  lemma LockedIn(c: Config, s: State, t: State, u: State, p: Pid, a: Action, w: World)
    requires p in s.procs && p in s.attempts && !s.procs[p].stage.Resting? && s.procs[p].stage.queue != []
    requires c.lockKey(a.target) !in s.locks
    requires t == s.(locks := s.locks[c.lockKey(a.target) := p],
                     procs := s.procs[p := Proc(Dequeue(s.procs[p].stage), Holding(a))],
                     attempts := s.attempts[p := s.attempts[p] + 1])
    requires var st, key := t.procs[p].stage, c.lockKey(a.target);
             u == if CapReached(c, t, p, a.target) then t.(locks := t.locks - {key}, procs := t.procs[p := Proc(st, Free)])
                  else AfterAct(c, t, p, a, w).(locks := t.locks - {key}, procs := t.procs[p := Proc(st, Free)])
    ensures u == AfterActOn(c, s, p, a, w)
  {
    var begun := s.(attempts := s.attempts[p := s.attempts[p] + 1]);
    var done := Proc(Dequeue(s.procs[p].stage), Free);
    SameFacts(c, s, t, p, a, w);
    SameFacts(c, s, begun, p, a, w);
    hide CapReached, DecisionIn, EffectsOf, QueuedBy, FinishedRow, Executes, Dequeue;
    assert t.locks - {c.lockKey(a.target)} == s.locks && t.procs[p := done] == s.procs[p := done];
  }

  /** The whole guarded act leads where a run of the protocol leads. */
  lemma ActOnIsARun(c: Config, s: State, p: Pid, a: Action, w: World) returns (es: seq<Event>)
    requires WellFormed(c, s) && p in c.procs && s.procs[p].phase.Free?
    requires !s.procs[p].stage.Resting? && s.procs[p].stage.queue != [] && s.procs[p].stage.queue[0] == a
    ensures Play(c, s, es) == AfterActOn(c, s, p, a, w)
  {
    hide Play, Step, Enabled, AfterAct, CapReached, AfterActOn;
    AttemptIs(c, s, p, a);
    PlayFirst(c, s, Attempt(p));
    var t := Step(c, s, Attempt(p));
    es := [Attempt(p)];
    if c.lockKey(a.target) in s.locks {
      LockedOut(c, s, p, a, w);
    } else {
      var rest := HeldActIsARun(c, t, p, a, w);
      LockedIn(c, s, t, Play(c, t, rest), p, a, w);
      PlayConcat(c, s, es, rest);
      es := es + rest;
    }
  }

  /** A guarded act told from tables, settings, decision and handler: when it is skipped, what the gate is told, and
      what the finished row, the effects and the approvals are. */
  lemma ActOnMeans(c: Config, s: State, p: Pid, a: Action, w: World)
    requires p in s.procs && p in s.attempts && !s.procs[p].stage.Resting? && s.procs[p].stage.queue != []
    ensures var r := ResultOf(c, s, p, a, w);
            var landed := set i | 0 <= i < |s.rows| && s.rows[i].executed && s.rows[i].run == c.runOf(p)
                                  && s.rows[i].action.target == a.target && s.rows[i].ts > s.now - 3_600_000_000;
            && (r == TargetLocked <==> c.lockKey(a.target) in s.locks)
            && (r == CapReachedFor <==> c.lockKey(a.target) !in s.locks && c.cap > 0 && |landed| >= c.cap)
            && (!r.Acted? ==> var t := AfterActOn(c, s, p, a, w); t.rows == s.rows && t.effects == s.effects && t.approvals == s.approvals)
    ensures ResultOf(c, s, p, a, w).Acted? ==> ActMeans(c, s, AfterActOn(c, s, p, a, w), p, a, w, ResultOf(c, s, p, a, w).executed)
  {
    CapReachedIs(c, s, p, a.target);
    hide CapReached;
    if ResultOf(c, s, p, a, w).Acted? {
      AfterActMeans(c, s, p, a, w);
      ActedOnIs(c, s, p, a, w);
      hide ActMeans, AfterActOn, AfterAct, Executes, DecisionIn;
      SameActMeans(c, s, AfterAct(c, s, p, a, w), AfterActOn(c, s, p, a, w), p, a, w, ResultOf(c, s, p, a, w).executed);
    }
  }

  lemma CapReachedIs(c: Config, s: State, p: Pid, target: string)
    ensures var landed := set i | 0 <= i < |s.rows| && s.rows[i].executed && s.rows[i].run == c.runOf(p)
                                  && s.rows[i].action.target == target && s.rows[i].ts > s.now - 3_600_000_000;
            CapReached(c, s, p, target) <==> c.cap > 0 && |landed| >= c.cap
  {
    var landed := set i | 0 <= i < |s.rows| && s.rows[i].executed && s.rows[i].run == c.runOf(p)
                          && s.rows[i].action.target == target && s.rows[i].ts > s.now - 3_600_000_000;
    CountIs(s.rows, ExecutedSince(c.runOf(p), target, s.now - HOUR), landed);
    hide Count;
  }

  lemma ActedOnIs(c: Config, s: State, p: Pid, a: Action, w: World)
    requires p in s.procs && p in s.attempts && !s.procs[p].stage.Resting? && s.procs[p].stage.queue != []
    requires ResultOf(c, s, p, a, w).Acted?
    ensures var t, u := AfterActOn(c, s, p, a, w), AfterAct(c, s, p, a, w);
            t.rows == u.rows && t.effects == u.effects && t.approvals == u.approvals
  {
    var begun := s.(attempts := s.attempts[p := s.attempts[p] + 1]);
    SameFacts(c, s, begun, p, a, w);
    hide DecisionIn, Executes, EffectsOf, QueuedBy, FinishedRow, CapReached;
  }

  lemma SameActMeans(c: Config, s: State, t: State, u: State, p: Pid, a: Action, w: World, executed: bool)
    requires ActMeans(c, s, t, p, a, w, executed) && u.rows == t.rows && u.effects == t.effects && u.approvals == t.approvals
    ensures ActMeans(c, s, u, p, a, w, executed)
  {
    hide RowMeans, GovernedAudit.Handling, Recent;
  }

  /** The rows of the last ten minutes the gate counts for an agent. */
  function Recent(c: Config, s: State, p: Pid, agent: Agent): set<int> {
    set i | 0 <= i < |s.rows| && s.rows[i].run == c.runOf(p) && s.rows[i].action.agent == agent && s.rows[i].ts >= s.now - 600_000_000
  }

  /** From `s` to `t` an act of `p` adds one row, and what decision, settings and handler make of it. */
  ghost predicate ActMeans(c: Config, s: State, t: State, p: Pid, a: Action, w: World, executed: bool) {
    var d := if w.reachable then c.policy(a, w.ctx.(recent := |Recent(c, s, p, a.agent)|)) else Decision(false, true);
    var ack := a.kind in {NoAction, RaiseAnomaly, AllowCompatible};
    var signOff := c.mode == NeedsApproval || (c.mode == Autonomous && a.kind in c.approvalRequired);
    && |t.rows| == |s.rows| + 1 && t.rows[..|s.rows|] == s.rows && RowMeans(c, t.rows[|s.rows|], p, a, d, executed, s.now)
    && (!d.allowed ==> !executed && t.effects == s.effects && t.approvals == s.approvals)
    && (d.allowed && ack ==> executed && t.effects == s.effects && t.approvals == s.approvals)
    && (d.allowed && !ack && signOff ==>
          !executed && t.effects == s.effects && t.approvals == s.approvals + [Approval(c.runOf(p), a, |s.rows|, Pending)])
    && (d.allowed && !ack && !signOff ==> t.approvals == s.approvals)
    && (d.allowed && !ack && c.mode == Shadow ==> !executed && t.effects == s.effects)
    && (d.allowed && !ack && !signOff && c.mode == Autonomous ==>
          GovernedAudit.Handling(a, c.runOf(p), w.res, executed, |t.effects| - |s.effects|))
  }

  /** A finished row: what was decided, whether it executed, and the status both amount to. */
  ghost predicate RowMeans(c: Config, r: Row, p: Pid, a: Action, d: Decision, executed: bool, now: int) {
    && r.run == c.runOf(p) && r.action == a && r.ts == now && r.executed == executed
    && (d.allowed ==> r.ruling == Allowed && r.status == if executed then Executed else Failed)
    && (!d.allowed && d.escalate ==> r.ruling == Escalated && r.status == StatusEscalated)
    && (!d.allowed && !d.escalate ==> r.ruling == Denied && r.status == StatusDenied)
  }

  lemma AfterActMeans(c: Config, s: State, p: Pid, a: Action, w: World)
    requires p in s.procs
    ensures ActMeans(c, s, AfterAct(c, s, p, a, w), p, a, w, Executes(c, p, a, DecisionIn(c, s, p, a, w), w.res))
  {
    RecentIs(c, s, p, a.agent);
    hide Count, Recent;
    var t, executed := AfterAct(c, s, p, a, w), Executes(c, p, a, DecisionIn(c, s, p, a, w), w.res);
    assert s.effects + [] == s.effects && s.approvals + [] == s.approvals;
    assert RowMeans(c, t.rows[|s.rows|], p, a, DecisionIn(c, s, p, a, w), executed, s.now);
  }

  lemma RecentIs(c: Config, s: State, p: Pid, agent: Agent)
    ensures Count(s.rows, ByAgentSince(c.runOf(p), agent, s.now - TEN_MINUTES)) == |Recent(c, s, p, agent)|
  {
    CountIs(s.rows, ByAgentSince(c.runOf(p), agent, s.now - TEN_MINUTES), Recent(c, s, p, agent));
    hide Count;
  }

  /** So after an act from any reachable state the cap and the audit trail still hold. */
  lemma ActIsGoverned(c: Config, now: int, before: seq<Event>, p: Pid, a: Action, w: World, run: string, target: string, from: int)
    requires c.cap > 0 && p in c.procs
    requires var s := Run(c, now, before);
             s.procs[p].phase.Free? && !s.procs[p].stage.Resting? && s.procs[p].stage.queue != [] && s.procs[p].stage.queue[0] == a
    ensures var t := AfterActOn(c, Run(c, now, before), p, a, w);
            && Count(t.rows, LandedIn(run, target, from)) <= c.cap
            && forall x :: x in t.effects ==> GovernedAudit.Justified(c, t, x)
  {
    hide Run, Play, AfterActOn, GovernedAudit.Justified;
    var es := ActOnIsARun(c, Run(c, now, before), p, a, w);
    PlayExtendsRun(c, now, before, es);
    GovernedAudit.BlastRadiusCap(c, now, before + es, run, target, from);
    GovernedAudit.AuditBeforeEffect(c, now, before + es);
  }

  /** The same for the code: what the guarded part leaves, once the lock is given back. */
  lemma GuardedIsActOn(c: Config, s: State, t: State, u: State, p: Pid, a: Action, w: World, r: Result)
    requires p in s.procs && p in s.attempts && !s.procs[p].stage.Resting? && s.procs[p].stage.queue != []
    requires c.lockKey(a.target) !in s.locks
    requires t == s.(locks := s.locks[c.lockKey(a.target) := p], attempts := s.attempts[p := s.attempts[p] + 1])
    requires if CapReached(c, t, p, a.target) then r == CapReachedFor && u == t
             else r == Acted(Executes(c, p, a, DecisionIn(c, t, p, a, w), w.res)) && u == AfterAct(c, t, p, a, w)
    ensures r == ResultOf(c, s, p, a, w)
    ensures u.(locks := u.locks - {c.lockKey(a.target)}, procs := u.procs[p := Proc(Dequeue(s.procs[p].stage), Free)])
            == AfterActOn(c, s, p, a, w)
  {
    SameFacts(c, s, t, p, a, w);
    hide CapReached, DecisionIn, EffectsOf, QueuedBy, FinishedRow, Executes, Dequeue;
    assert s.locks[c.lockKey(a.target) := p] - {c.lockKey(a.target)} == s.locks;
  }

  // --- The process ------------------------------------------------------------------------------

  class ControlLoop {
    const db: Tables
    const p: Pid

    constructor (db: Tables, p: Pid)
      ensures this.db == db && this.p == p
    {
      this.db, this.p := db, p;
    }

    /** Try the target's advisory lock; never wait for it. */
    method TryLock(target: string) returns (acquired: bool)
      modifies db`locks
      ensures acquired <==> db.c.lockKey(target) !in old(db.locks)
      ensures db.locks == if acquired then old(db.locks)[db.c.lockKey(target) := p] else old(db.locks)
    {
      var key := db.c.lockKey(target);
      acquired := key !in db.locks;
      if acquired { db.locks := db.locks[key := p]; }
    }

    method Unlock(target: string)
      modifies db`locks
      ensures db.locks == old(db.locks) - {db.c.lockKey(target)}
    {
      db.locks := db.locks - {db.c.lockKey(target)};
    }

    method BlastRadiusExceeded(target: string) returns (exceeded: bool)
      ensures exceeded == CapReached(db.c, db.Now(), p, target)
    {
      if db.c.cap <= 0 { return false; }
      var n := CountRows(db.rows, ExecutedSince(db.c.runOf(p), target, db.now - HOUR));
      exceeded := n >= db.c.cap;
    }

    /** Build the gate's context and ask the policy engine, failing safe when it does not answer. */
    method Evaluate(a: Action, w: World) returns (d: Decision)
      ensures d == DecisionIn(db.c, db.Now(), p, a, w)
    {
      var recent := CountRows(db.rows, ByAgentSince(db.c.runOf(p), a.agent, db.now - TEN_MINUTES));
      d := if w.reachable then db.c.policy(a, w.ctx.(recent := recent)) else FAILSAFE;
    }

    /** Carry out a gated action by mode: acknowledge, shadow, queue for sign-off, or run its handler. */
    method Execute(a: Action, d: Decision, row: nat, res: HandlerResult) returns (executed: bool)
      requires |db.rows| == row + 1
      modifies db`effects, db`approvals
      ensures executed == Executes(db.c, p, a, d, res)
      ensures db.effects == old(db.effects) + EffectsOf(db.c, p, a, d, res, row)
      ensures db.approvals == old(db.approvals) + QueuedBy(db.c, p, a, d, row)
      ensures d.allowed && a.kind !in {NoAction, RaiseAnomaly, AllowCompatible}
              && (db.c.mode == NeedsApproval || (db.c.mode == Autonomous && a.kind in db.c.approvalRequired)) ==>
                !executed && db.effects == old(db.effects)
                && db.approvals == old(db.approvals) + [Approval(db.c.runOf(p), a, row, Pending)]
      ensures d.allowed && db.c.mode == Autonomous && a.kind !in db.c.approvalRequired ==> db.approvals == old(db.approvals)
    {
      executed := false;
      if d.allowed {
        if IsAuto(a.kind) || EffectiveMode(db.c, a.kind) == Autonomous {
          var out := ApplyAction(a, db.c.runOf(p), res);
          executed := out.executed;
          if out.touched { db.effects := db.effects + [Effect(ByLoop(row), a, |db.rows|)]; }
        } else if EffectiveMode(db.c, a.kind) == NeedsApproval {
          db.approvals := db.approvals + [Approval(db.c.runOf(p), a, row, Pending)];
        }
      }
      assert old(db.effects) + [] == old(db.effects) && old(db.approvals) + [] == old(db.approvals);
      hide ApplyAction;
    }

    /** Gate, write ahead, execute, record the outcome: one finished row and exactly its consequences. */
    method Act(a: Action, w: World) returns (executed: bool)
      requires p in db.procs
      modifies db`rows, db`effects, db`approvals, db`procs
      ensures db.Now() == AfterAct(db.c, old(db.Now()), p, a, w)
      ensures executed == Executes(db.c, p, a, DecisionIn(db.c, old(db.Now()), p, a, w), w.res)
      ensures ActMeans(db.c, old(db.Now()), db.Now(), p, a, w, executed)
    {
      AfterActMeans(db.c, db.Now(), p, a, w);
      hide ActMeans, DecisionIn, Executes, EffectsOf, QueuedBy, FinalStatus, RulingOf;
      ghost var rows := db.rows;
      var d := Evaluate(a, w);
      var row := |db.rows|;
      db.rows := db.rows + [Row(db.c.runOf(p), a, RulingOf(d), false, Executing, db.now)];
      executed := Execute(a, d, row, w.res);
      var r := db.rows[row];
      db.rows := db.rows[row := r.(executed := executed, status := FinalStatus(r.ruling, executed))];
      assert db.rows == rows + [FinishedRow(db.c, p, a, d, w.res, db.now)];
      db.procs := db.procs[p := Proc(db.procs[p].stage, Updated(a))];
    }

    /** Lock the target, check the cap, act, unlock. */
    method ActOn(a: Action, w: World) returns (r: Result)
      requires p in db.procs && p in db.attempts && !db.procs[p].stage.Resting? && db.procs[p].stage.queue != []
      modifies db
      ensures r == ResultOf(db.c, old(db.Now()), p, a, w)
      ensures db.Now() == AfterActOn(db.c, old(db.Now()), p, a, w)
      ensures r.Acted? ==> ActMeans(db.c, old(db.Now()), db.Now(), p, a, w, r.executed)
    {
      ActOnMeans(db.c, db.Now(), p, a, w);
      hide ActMeans;
      hide CapReached, DecisionIn, Executes, AfterAct, AfterActOn, ResultOf;
      ghost var s := db.Now();
      ghost var done := Proc(Dequeue(db.procs[p].stage), Free);
      db.attempts := db.attempts[p := db.attempts[p] + 1];
      var acquired := TryLock(a.target);
      ghost var t := db.Now();
      r := TargetLocked;
      if acquired {
        r := Guarded(a, w);
        GuardedIsActOn(db.c, s, t, db.Now(), p, a, w, r);
        Unlock(a.target);
      } else {
        LockedOut(db.c, s, p, a, w);
      }
      db.procs := db.procs[p := done];
    }

    /** With the lock held: act unless the cap is reached. */
    method Guarded(a: Action, w: World) returns (r: Result)
      requires p in db.procs
      modifies db`rows, db`effects, db`approvals, db`procs
      ensures var s := old(db.Now());
              if CapReached(db.c, s, p, a.target) then r == CapReachedFor && db.Now() == s
              else r == Acted(Executes(db.c, p, a, DecisionIn(db.c, s, p, a, w), w.res)) && db.Now() == AfterAct(db.c, s, p, a, w)
    {
      var exceeded := BlastRadiusExceeded(a.target);
      hide CapReached, DecisionIn, Executes, AfterAct;
      if exceeded { return CapReachedFor; }
      var executed := Act(a, w);
      r := Acted(executed);
    }
  }
}
