/** Rate limit, audit-before-effect and kill switch of the governed action protocol, and the theorems
    about whole runs. */
module GovernedAudit {
  import opened Actions
  import opened Tally
  import opened GovernedLoop
  import opened GovernedSafety
  import Bids

  // --- The runaway guard ------------------------------------------------------------------------

  ghost function ProcsOf(c: Config, run: string): set<Pid> { set p | p in c.procs && c.runOf(p) == run }

  ghost predicate PendingAllowed(c: Config, s: State, run: string, agent: Agent, p: Pid)
    requires WellFormed(c, s) && p in c.procs
  {
    var ph := s.procs[p].phase;
    c.runOf(p) == run && ph.Judged? && ph.d.allowed && ph.a.agent == agent
  }

  /** Processes holding an allow decision they have not written to the audit table yet. */
  ghost function Unwritten(c: Config, s: State, run: string, agent: Agent): set<Pid>
    requires WellFormed(c, s)
  {
    set p | p in c.procs && PendingAllowed(c, s, run, agent, p)
  }

  ghost predicate RateKept(c: Config, s: State, run: string, agent: Agent, w: int)
    requires WellFormed(c, s)
  {
    Count(s.rows, AllowedIn(run, agent, w))
    + (if s.now <= w + TEN_MINUTES then |Unwritten(c, s, run, agent)| else 0)
    <= RATE_LIMIT - 1 + |ProcsOf(c, run)|
  }

  /** What a process step does to decisions and to the rows that record them. */
  ghost predicate JudgeDelta(c: Config, s: State, s': State, p: Pid)
    requires WellFormed(c, s) && WellFormed(c, s') && p in c.procs
  {
    var ph, ph' := s.procs[p].phase, s'.procs[p].phase;
    && s'.now == s.now && s'.procs == s.procs[p := s'.procs[p]]
    && (|| (s'.rows == s.rows && !ph'.Judged?)
        || (s'.rows == s.rows && ph.Cleared? && ph'.Judged? && ph'.a == ph.a
            && (ph'.d.allowed ==>
                  Count(s.rows, ByAgentSince(c.runOf(p), ph.a.agent, s.now - TEN_MINUTES)) < RATE_LIMIT))
        || (ph.Judged? && !ph'.Judged?
            && s'.rows == s.rows + [Row(c.runOf(p), ph.a, RulingOf(ph.d), false, Executing, s.now)])
        || (ph.Performed? && ph.row < |s.rows| && !ph'.Judged?
            && s'.rows == s.rows[ph.row := s.rows[ph.row].(executed := ph.executed,
                                             status := FinalStatus(s.rows[ph.row].ruling, ph.executed))]))
  }

  lemma JudgeStep(c: Config, s: State, e: Event)
    requires WellFormed(c, s) && IsLocal(e) && CanAct(c, s, e) && GuardsRunaways(c.policy)
    ensures JudgeDelta(c, s, Step(c, s, e), e.p)
  {
    hide Bids.Resolve, Bids.OnePerAgent, Count, ApplyAction, RunsNow, Queues, RulingOf, FinalStatus, CapReached, Dequeue;
  }

  lemma PendingAtMostProcs(c: Config, s: State, run: string, agent: Agent)
    requires WellFormed(c, s)
    ensures |Unwritten(c, s, run, agent)| <= |ProcsOf(c, run)|
  {
    SubsetSize(Unwritten(c, s, run, agent), ProcsOf(c, run));
  }

  lemma {:induction false} SubsetSize<T>(a: set<T>, b: set<T>)
    requires a <= b
    ensures |a| <= |b|
  {
    if x :| x in a {
      SubsetSize(a - {x}, b - {x});
    }
  }

  lemma UnwrittenStep(c: Config, s: State, s': State, p: Pid, run: string, agent: Agent)
    requires WellFormed(c, s) && WellFormed(c, s') && p in c.procs && s'.procs == s.procs[p := s'.procs[p]]
    ensures Unwritten(c, s', run, agent) - {p} == Unwritten(c, s, run, agent) - {p}
    ensures p in Unwritten(c, s', run, agent) <==> PendingAllowed(c, s', run, agent, p)
    ensures p in Unwritten(c, s, run, agent) <==> PendingAllowed(c, s, run, agent, p)
  {
    forall q ensures q in Unwritten(c, s', run, agent) - {p} <==> q in Unwritten(c, s, run, agent) - {p} {
      if q in c.procs && q != p {
        assert PendingAllowed(c, s', run, agent, q) <==> PendingAllowed(c, s, run, agent, q);
      }
    }
  }

  /** A fresh decision: the count it was based on leaves room for every process of the run. */
  lemma DecisionKeepsRate(c: Config, s: State, s': State, p: Pid, run: string, agent: Agent, w: int)
    requires WellFormed(c, s) && WellFormed(c, s') && p in c.procs && s'.procs[p].phase.Judged?
    requires JudgeDelta(c, s, s', p) && RateKept(c, s, run, agent, w)
    ensures RateKept(c, s', run, agent, w)
  {
    var before, after := Unwritten(c, s, run, agent), Unwritten(c, s', run, agent);
    UnwrittenStep(c, s, s', p, run, agent);
    if p !in after {
      assert after == before - {p};
      SubsetSize(after, before);
    } else if s.now <= w + TEN_MINUTES {
      CountWeaken(s.rows, AllowedIn(run, agent, w), ByAgentSince(run, agent, s.now - TEN_MINUTES));
      PendingAtMostProcs(c, s', run, agent);
    }
  }

  /** Any other step adds at most one allowed row, and then it was a pending decision's. */
  lemma WritesOneRow(c: Config, s: State, s': State, p: Pid, run: string, agent: Agent, w: int)
    requires WellFormed(c, s) && WellFormed(c, s') && p in c.procs && !s'.procs[p].phase.Judged?
    requires JudgeDelta(c, s, s', p)
    ensures !PendingAllowed(c, s', run, agent, p)
    ensures Count(s'.rows, AllowedIn(run, agent, w))
            <= Count(s.rows, AllowedIn(run, agent, w))
               + if PendingAllowed(c, s, run, agent, p) && s.now <= w + TEN_MINUTES then 1 else 0
  {
    var ph := s.procs[p].phase;
    var f := AllowedIn(run, agent, w);
    hide Count;
    if s'.rows != s.rows {
      if ph.Judged? {
        CountAppend(s.rows, s'.rows[|s.rows|], f);
      } else {
        CountUpdate(s.rows, ph.row, s'.rows[ph.row], f);
        assert f(s'.rows[ph.row]) == f(s.rows[ph.row]);
      }
    }
  }

  lemma WritingKeepsRate(c: Config, s: State, s': State, p: Pid, run: string, agent: Agent, w: int)
    requires WellFormed(c, s) && WellFormed(c, s') && p in c.procs && !s'.procs[p].phase.Judged?
    requires JudgeDelta(c, s, s', p) && RateKept(c, s, run, agent, w)
    ensures RateKept(c, s', run, agent, w)
  {
    WritesOneRow(c, s, s', p, run, agent, w);
    UnwrittenStep(c, s, s', p, run, agent);
    var before, after := Unwritten(c, s, run, agent), Unwritten(c, s', run, agent);
    assert after == before - {p};
    assert s'.now == s.now;
    hide Count, AllowedIn, JudgeDelta, PendingAllowed, Unwritten, ProcsOf;
  }

  lemma OperatorKeepsRate(c: Config, s: State, s': State, run: string, agent: Agent, w: int)
    requires WellFormed(c, s) && WellFormed(c, s') && RateKept(c, s, run, agent, w)
    requires s'.procs == s.procs && s'.rows == s.rows && s.now <= s'.now
    ensures RateKept(c, s', run, agent, w)
  {
    hide Count;
    assert Unwritten(c, s', run, agent) == Unwritten(c, s, run, agent);
  }

  lemma StepKeepsRate(c: Config, s: State, e: Event, run: string, agent: Agent, w: int)
    requires GuardsRunaways(c.policy) && WellFormed(c, s) && Enabled(c, s, e) && RateKept(c, s, run, agent, w)
    ensures RateKept(c, Step(c, s, e), run, agent, w)
  {
    var s' := Step(c, s, e);
    if IsLocal(e) {
      JudgeStep(c, s, e);
      hide Step, Enabled, RateKept, JudgeDelta, GuardsRunaways;
      if s'.procs[e.p].phase.Judged? {
        DecisionKeepsRate(c, s, s', e.p, run, agent, w);
      } else {
        WritingKeepsRate(c, s, s', e.p, run, agent, w);
      }
    } else {
      OperatorKeepsRate(c, s, s', run, agent, w);
    }
  }

  // --- The kill switch --------------------------------------------------------------------------

  /** Acts a process may still begin without reading the kill switch again. */
  ghost function Queued(c: Config, p: Pid, st: Stage): nat {
    match st
    case Resting => 0
    case Watching(q) => |q| + |ReactiveEnabled(c, p)|
    case Reacting(q) => |q|
  }

  ghost function ActsPerTick(c: Config, p: Pid): nat {
    (if Monitoring in c.enabled(p) then 1 else 0) + |ReactiveEnabled(c, p)|
  }

  ghost predicate PauseKept(c: Config, s: State, p: Pid)
    requires WellFormed(c, s) && p in c.procs
  {
    Queued(c, p, s.procs[p].stage) + (if s.paused then s.attempts[p] else 0) <= ActsPerTick(c, p)
  }

  lemma {:induction false} DistinctAgents(ps: seq<Bids.Bid>, agents: set<Agent>)
    requires Bids.OnePerAgent(ps) && forall a :: a in ps ==> a.agent in agents
    ensures |ps| <= |agents|
  {
    if ps != [] {
      var k := |ps| - 1;
      forall a | a in ps[..k] ensures a.agent in agents - {ps[k].agent} {
        var i :| 0 <= i < k && ps[i] == a;
      }
      DistinctAgents(ps[..k], agents - {ps[k].agent});
      assert ps[k] in ps;
    }
  }

  /** A process step starts a tick while not paused, or uses up what was queued. */
  lemma ActQueues(c: Config, s: State, e: Event)
    requires WellFormed(c, s) && IsLocal(e) && CanAct(c, s, e)
    ensures var o := Act(c, s, e);
            || (!s.paused && Queued(c, e.p, o.proc.stage) <= ActsPerTick(c, e.p))
            || Queued(c, e.p, o.proc.stage) + o.begun <= Queued(c, e.p, s.procs[e.p].stage)
  {
    if e.React? {
      DistinctAgents(e.proposals, ReactiveEnabled(c, e.p));
      Bids.WinnersAtMostProposals(e.proposals);
    }
  }

  lemma StepKeepsPause(c: Config, s: State, e: Event, p: Pid)
    requires WellFormed(c, s) && Enabled(c, s, e) && p in c.procs && PauseKept(c, s, p)
    ensures PauseKept(c, Step(c, s, e), p)
  {
    if IsLocal(e) { ActQueues(c, s, e); }
    hide Act, CanAct, Queued, ActsPerTick;
  }

  // --- Audit before effect ----------------------------------------------------------------------

  ghost predicate NoEffectFrom(s: State, src: Source) {
    forall k :: 0 <= k < |s.effects| ==> s.effects[k].source != src
  }

  ghost predicate SomeEffectFrom(s: State, src: Source) {
    exists k :: 0 <= k < |s.effects| && s.effects[k].source == src
  }

  /** An effect of the loop has its own committed, allowed audit row, written before it happened; an
      effect of an approval belongs to an approval decided for execution. */
  ghost predicate Justified(c: Config, s: State, x: Effect) {
    && HasHandler(x.action.kind) && x.after <= |s.rows|
    && match x.source
       case ByLoop(i) =>
         && i < x.after && s.rows[i].action == x.action && s.rows[i].ruling == Allowed
         && s.rows[i].run != x.action.target && EffectiveMode(c, x.action.kind) == Autonomous
       case ByApproval(j) =>
         && j < |s.approvals| && s.approvals[j].action == x.action
         && s.approvals[j].run != x.action.target
         && s.approvals[j].status in {ApprovalExecuted, ApprovalFailed}
  }

  /** An approval row stems from an allowed audit row whose kind needs sign-off. */
  ghost predicate ApprovalJustified(c: Config, s: State, j: nat)
    requires j < |s.approvals|
  {
    var q := s.approvals[j];
    && q.origin < |s.rows| && s.rows[q.origin].action == q.action && s.rows[q.origin].run == q.run
    && s.rows[q.origin].ruling == Allowed
    && !IsAuto(q.action.kind) && EffectiveMode(c, q.action.kind) == NeedsApproval
    && (q.status == Pending ==> NoEffectFrom(s, ByApproval(j)))
    && (q.status == ApprovalExecuted && AlwaysChanges(q.action.kind) ==> SomeEffectFrom(s, ByApproval(j)))
  }

  /** What an executed audit row certifies; a rollback may have executed without finding a version. */
  ghost predicate Certified(c: Config, s: State, i: nat, a: Action, d: Ruling) {
    && d == Allowed && (IsAuto(a.kind) || EffectiveMode(c, a.kind) == Autonomous)
    && (AlwaysChanges(a.kind) ==> SomeEffectFrom(s, ByLoop(i)))
  }

  ghost predicate ProcCertified(c: Config, s: State, p: Pid)
    requires WellFormed(c, s) && p in c.procs
  {
    var ph := s.procs[p].phase;
    && (ph.Logged? ==> NoEffectFrom(s, ByLoop(ph.row)))
    && (ph.Performed? && ph.executed ==> Certified(c, s, ph.row, ph.a, RulingOf(ph.d)))
  }

  ghost predicate Audited(c: Config, s: State)
    requires WellFormed(c, s)
  {
    && (forall x :: x in s.effects ==> Justified(c, s, x))
    && (forall k, l :: 0 <= k < l < |s.effects| ==> s.effects[k].source != s.effects[l].source)
    && (forall j :: 0 <= j < |s.approvals| ==> ApprovalJustified(c, s, j))
    && (forall p :: p in c.procs ==> ProcCertified(c, s, p))
    && (forall i :: 0 <= i < |s.rows| && s.rows[i].executed ==>
          Certified(c, s, i, s.rows[i].action, s.rows[i].ruling))
  }

  /** Old rows keep what was decided; only the owner's row may become executed. */
  ghost predicate RowsGrow(c: Config, s: State, s': State, p: Pid)
    requires WellFormed(c, s) && p in c.procs
  {
    var ph := s.procs[p].phase;
    && |s.rows| <= |s'.rows|
    && (forall i :: 0 <= i < |s.rows| ==>
          && s'.rows[i].action == s.rows[i].action && s'.rows[i].ruling == s.rows[i].ruling
          && s'.rows[i].run == s.rows[i].run
          && (s'.rows[i].executed ==> s.rows[i].executed || (ph.Performed? && ph.executed && ph.row == i)))
    && (forall i :: |s.rows| <= i < |s'.rows| ==> i == |s.rows| && !s'.rows[i].executed)
  }

  /** A process step that leaves effects and approvals alone. */
  ghost predicate QuietDelta(c: Config, s: State, s': State, p: Pid)
    requires WellFormed(c, s) && WellFormed(c, s') && p in c.procs
  {
    var ph, ph' := s.procs[p].phase, s'.procs[p].phase;
    && s'.procs == s.procs[p := s'.procs[p]]
    && s'.effects == s.effects && s'.approvals == s.approvals && RowsGrow(c, s, s', p)
    && (ph'.Logged? ==> ph' == ph || ph'.row == |s.rows|)
    && !ph'.Performed?
  }

  /** The executor step: the only one that touches anything beyond the audit table. */
  ghost predicate ExecuteDelta(c: Config, s: State, s': State, p: Pid)
    requires WellFormed(c, s) && WellFormed(c, s') && p in c.procs
  {
    var ph, ph' := s.procs[p].phase, s'.procs[p].phase;
    && ph.Logged? && ph'.Performed? && ph'.a == ph.a && ph'.d == ph.d && ph'.row == ph.row
    && s'.procs == s.procs[p := s'.procs[p]] && s'.rows == s.rows
    && (|| (s'.effects == s.effects && s'.approvals == s.approvals
            && (ph'.executed ==> ph.d.allowed && !AlwaysChanges(ph.a.kind)
                                 && (IsAuto(ph.a.kind) || EffectiveMode(c, ph.a.kind) == Autonomous)))
        || (s'.approvals == s.approvals && ph.d.allowed && HasHandler(ph.a.kind) && ph.a.target != c.runOf(p)
            && EffectiveMode(c, ph.a.kind) == Autonomous
            && s'.effects == s.effects + [Effect(ByLoop(ph.row), ph.a, |s.rows|)])
        || (s'.effects == s.effects && !ph'.executed && ph.d.allowed && !IsAuto(ph.a.kind)
            && EffectiveMode(c, ph.a.kind) == NeedsApproval
            && s'.approvals == s.approvals + [Approval(c.runOf(p), ph.a, ph.row, Pending)]))
  }

  lemma ExecuteStep(c: Config, s: State, e: Event)
    requires WellFormed(c, s) && e.Execute? && CanAct(c, s, e)
    ensures ExecuteDelta(c, s, Step(c, s, e), e.p)
  {}

  lemma QuietStep(c: Config, s: State, e: Event)
    requires WellFormed(c, s) && IsLocal(e) && !e.Execute? && CanAct(c, s, e)
    ensures QuietDelta(c, s, Step(c, s, e), e.p)
  {
    hide Bids.Resolve, Bids.OnePerAgent, Count, ApplyAction, RunsNow, Queues, CapReached, Dequeue;
  }

  lemma QuietKeepsAudited(c: Config, s: State, s': State, p: Pid)
    requires WellFormed(c, s) && WellFormed(c, s') && p in c.procs && QuietDelta(c, s, s', p)
    requires Audited(c, s) && RowsConsistent(c, s)
    ensures Audited(c, s')
  {
    assert ProcCertified(c, s, p) && OwnRowMatches(c, s, p);
    forall src ensures SomeEffectFrom(s', src) <==> SomeEffectFrom(s, src) {}
    forall x | x in s'.effects ensures Justified(c, s', x) { assert Justified(c, s, x); }
    forall j | 0 <= j < |s'.approvals| ensures ApprovalJustified(c, s', j) {
      assert ApprovalJustified(c, s, j);
      assert NoEffectFrom(s, ByApproval(j)) ==> NoEffectFrom(s', ByApproval(j));
    }
    forall q | q in c.procs ensures ProcCertified(c, s', q) {
      assert ProcCertified(c, s, q);
      if s'.procs[q].phase.Logged? && s'.procs[q].phase != s.procs[q].phase {
        forall k | 0 <= k < |s.effects| ensures s.effects[k].source != ByLoop(|s.rows|) {
          assert Justified(c, s, s.effects[k]);
        }
      }
    }
    forall i | 0 <= i < |s'.rows| && s'.rows[i].executed
      ensures Certified(c, s', i, s'.rows[i].action, s'.rows[i].ruling)
    {
      assert i < |s.rows|;
    }
  }

  /** One more effect: it is found, and everything found before still is. */
  lemma OneMoreEffect(s: State, s': State, x: Effect)
    requires s'.effects == s.effects + [x]
    ensures SomeEffectFrom(s', x.source)
    ensures forall src :: SomeEffectFrom(s, src) ==> SomeEffectFrom(s', src)
    ensures forall src :: NoEffectFrom(s, src) && src != x.source ==> NoEffectFrom(s', src)
  {
    assert s'.effects[|s.effects|] == x;
    forall src | SomeEffectFrom(s, src) ensures SomeEffectFrom(s', src) {
      var k :| 0 <= k < |s.effects| && s.effects[k].source == src;
      assert s'.effects[k].source == src;
    }
  }

  lemma ExecuteKeepsAudited(c: Config, s: State, s': State, p: Pid)
    requires WellFormed(c, s) && WellFormed(c, s') && p in c.procs && ExecuteDelta(c, s, s', p)
    requires Audited(c, s) && RowsConsistent(c, s)
    ensures Audited(c, s')
  {
    var ph := s.procs[p].phase;
    assert ProcCertified(c, s, p) && OwnRowMatches(c, s, p);
    if s'.effects != s.effects {
      OneMoreEffect(s, s', s'.effects[|s.effects|]);
    } else {
      forall src ensures SomeEffectFrom(s', src) <==> SomeEffectFrom(s, src) {}
    }
    forall x | x in s'.effects ensures Justified(c, s', x) {
      assert x in s.effects ==> Justified(c, s, x);
    }
    forall j | 0 <= j < |s'.approvals| ensures ApprovalJustified(c, s', j) {
      if j < |s.approvals| {
        assert ApprovalJustified(c, s, j);
      } else {
        FreshApproval(c, s, j);
      }
    }
    forall q | q in c.procs ensures ProcCertified(c, s', q) {
      assert ProcCertified(c, s, q);
      if q != p && OwnsRow(s.procs[q].phase) {
        assert Owns(c, s, q, s.procs[q].phase.row) && Owns(c, s, p, ph.row);
      }
    }
    forall i | 0 <= i < |s'.rows| && s'.rows[i].executed
      ensures Certified(c, s', i, s'.rows[i].action, s'.rows[i].ruling)
    {}
  }

  lemma FreshApproval(c: Config, s: State, j: nat)
    requires WellFormed(c, s) && Audited(c, s) && j >= |s.approvals|
    ensures NoEffectFrom(s, ByApproval(j))
  {
    forall k | 0 <= k < |s.effects| ensures s.effects[k].source != ByApproval(j) {
      assert Justified(c, s, s.effects[k]);
    }
  }

  lemma ApproveKeepsAudited(c: Config, s: State, e: Event)
    requires WellFormed(c, s) && e.Approve? && Enabled(c, s, e) && Audited(c, s)
    ensures Audited(c, Step(c, s, e))
  {
    var s', id := Step(c, s, e), e.id;
    assert ApprovalJustified(c, s, id);
    if s'.effects != s.effects {
      OneMoreEffect(s, s', s'.effects[|s.effects|]);
    } else {
      forall src ensures SomeEffectFrom(s', src) <==> SomeEffectFrom(s, src) {}
    }
    forall x | x in s'.effects ensures Justified(c, s', x) {
      assert x in s.effects ==> Justified(c, s, x);
    }
    forall j | 0 <= j < |s'.approvals| ensures ApprovalJustified(c, s', j) {
      assert ApprovalJustified(c, s, j);
    }
    forall q | q in c.procs ensures ProcCertified(c, s', q) { assert ProcCertified(c, s, q); }
  }

  lemma StepKeepsAudited(c: Config, s: State, e: Event)
    requires WellFormed(c, s) && Enabled(c, s, e) && Audited(c, s) && RowsConsistent(c, s)
    ensures Audited(c, Step(c, s, e))
  {
    if IsLocal(e) {
      if e.Execute? {
        ExecuteStep(c, s, e);
        ExecuteKeepsAudited(c, s, Step(c, s, e), e.p);
      } else {
        QuietStep(c, s, e);
        QuietKeepsAudited(c, s, Step(c, s, e), e.p);
      }
    } else if e.Approve? {
      ApproveKeepsAudited(c, s, e);
    } else {
      OperatorIsQuiet(c, s, e);
    }
  }

  lemma OperatorIsQuiet(c: Config, s: State, e: Event)
    requires WellFormed(c, s) && Enabled(c, s, e) && !IsLocal(e) && !e.Approve? && Audited(c, s)
    ensures Audited(c, Step(c, s, e))
  {
    var s' := Step(c, s, e);
    assert s'.effects == s.effects && s'.rows == s.rows && s'.procs == s.procs;
    assert e.Reject? ==> s'.approvals == s.approvals[e.id := s.approvals[e.id].(status := Rejected)];
    assert !e.Reject? ==> s'.approvals == s.approvals;
    hide Step;
    forall src ensures SomeEffectFrom(s', src) <==> SomeEffectFrom(s, src) {}
    forall x | x in s'.effects ensures Justified(c, s', x) { assert Justified(c, s, x); }
    forall j | 0 <= j < |s'.approvals| ensures ApprovalJustified(c, s', j) {
      assert ApprovalJustified(c, s, j);
    }
    forall q | q in c.procs ensures ProcCertified(c, s', q) { assert ProcCertified(c, s, q); }
  }

  // --- Whole runs -------------------------------------------------------------------------------

  lemma {:induction false} RunIsConsistent(c: Config, now: int, es: seq<Event>)
    ensures LocksHeld(c, Run(c, now, es)) && RowsConsistent(c, Run(c, now, es)) && Audited(c, Run(c, now, es))
  {
    if es != [] {
      var t := es[..|es| - 1];
      var s, e := Run(c, now, t), es[|es| - 1];
      RunIsConsistent(c, now, t);
      if Enabled(c, s, e) {
        StepKeepsLocks(c, s, e);
        StepKeepsRows(c, s, e);
        StepKeepsAudited(c, s, e);
      }
    }
  }

  /** The positions of a run's rows executed on a target in the hour after `w`. */
  function HourOf(rows: seq<Row>, run: string, target: string, w: int): set<int> {
    set i | 0 <= i < |rows| && rows[i].executed && rows[i].run == run && rows[i].action.target == target
            && w < rows[i].ts <= w + 3_600_000_000
  }

  /** The positions of a run's allowed rows of an agent in the ten minutes from `w` on. */
  function TenMinutesOf(rows: seq<Row>, run: string, agent: Agent, w: int): set<int> {
    set i | 0 <= i < |rows| && rows[i].ruling == Allowed && rows[i].run == run && rows[i].action.agent == agent
            && w <= rows[i].ts <= w + 600_000_000
  }

  lemma CountsAreSizes(rows: seq<Row>, run: string, target: string, agent: Agent, w: int)
    ensures Count(rows, LandedIn(run, target, w)) == |HourOf(rows, run, target, w)|
    ensures Count(rows, AllowedIn(run, agent, w)) == |TenMinutesOf(rows, run, agent, w)|
  {
    CountIs(rows, LandedIn(run, target, w), HourOf(rows, run, target, w));
    CountIs(rows, AllowedIn(run, agent, w), TenMinutesOf(rows, run, agent, w));
    hide Count;
  }

  /** For any processes, interleaving, interruptions and lock hash, no hour ever holds more than `cap`
      executed actions of one run on one target. */
  lemma BlastRadiusCap(c: Config, now: int, es: seq<Event>, run: string, target: string, w: int)
    requires c.cap > 0
    ensures |HourOf(Run(c, now, es).rows, run, target, w)| <= c.cap
    ensures Count(Run(c, now, es).rows, LandedIn(run, target, w)) <= c.cap
  {
    CapThroughout(c, now, es, run, target, w);
    CountsAreSizes(Run(c, now, es).rows, run, target, Monitoring, w);
    hide *;
  }

  lemma {:induction false} CapThroughout(c: Config, now: int, es: seq<Event>, run: string, target: string, w: int)
    requires c.cap > 0
    ensures Count(Run(c, now, es).rows, LandedIn(run, target, w)) <= c.cap
    ensures CapKept(c, Run(c, now, es), run, target, w)
  {
    if es != [] {
      var t := es[..|es| - 1];
      var s, e := Run(c, now, t), es[|es| - 1];
      CapThroughout(c, now, t, run, target, w);
      RunIsConsistent(c, now, t);
      if Enabled(c, s, e) { StepKeepsCap(c, s, e, run, target, w); }
    }
  }

  lemma {:induction false} RateBound(c: Config, now: int, es: seq<Event>, run: string, agent: Agent, w: int)
    requires GuardsRunaways(c.policy) && ProcsOf(c, run) != {}
    ensures RateKept(c, Run(c, now, es), run, agent, w)
  {
    if es == [] {
      assert Unwritten(c, Init(c, now), run, agent) == {};
    } else {
      var t := es[..|es| - 1];
      var s, e := Run(c, now, t), es[|es| - 1];
      RateBound(c, now, t, run, agent, w);
      if Enabled(c, s, e) { StepKeepsRate(c, s, e, run, agent, w); }
    }
  }

  /** With `n` loop processes on a run, any ten minutes hold at most four plus `n` allowed actions of
      an agent: five when the run has one process. The gate counts before its own row is written and
      takes no lock across agents' targets, so each further process may add one. */
  lemma RunawayBound(c: Config, now: int, es: seq<Event>, run: string, agent: Agent, w: int)
    requires GuardsRunaways(c.policy) && ProcsOf(c, run) != {}
    ensures |TenMinutesOf(Run(c, now, es).rows, run, agent, w)| <= 4 + |ProcsOf(c, run)|
    ensures |ProcsOf(c, run)| == 1 ==> |TenMinutesOf(Run(c, now, es).rows, run, agent, w)| <= 5
  {
    RateBound(c, now, es, run, agent, w);
    CountsAreSizes(Run(c, now, es).rows, run, "", agent, w);
    hide Run, Count, AllowedIn, TenMinutesOf, ProcsOf;
  }

  /** The documented policy is one of the policies the bound is about. */
  lemma SpecPolicyRunawayBound(c: Config, now: int, es: seq<Event>, run: string, agent: Agent, w: int)
    requires c.policy == SpecPolicy() && |ProcsOf(c, run)| == 1
    ensures |TenMinutesOf(Run(c, now, es).rows, run, agent, w)| <= 5
  {
    SpecPolicyGuardsRunaways();
    RunawayBound(c, now, es, run, agent, w);
  }

  /** The switch is set as told; acts are counted from the moment it is engaged. */
  lemma SwitchMeans(c: Config, s: State, on: bool)
    requires WellFormed(c, s)
    ensures var t := Step(c, s, SetPaused(on));
            && t.paused == on && t.attempts.Keys == c.procs
            && (forall p :: p in c.procs ==> t.attempts[p] == if on && !s.paused then 0 else s.attempts[p])
    ensures forall p, watch :: s.paused ==> !Enabled(c, s, StartTick(p, watch))
  {}

  /** An act for every enabled agent: there are no others than the monitor and the three reactive ones. */
  lemma ActsPerTickIs(c: Config, p: Pid)
    ensures ActsPerTick(c, p) == |c.enabled(p)|
  {
    var agents := c.enabled(p);
    var reactive := ReactiveEnabled(c, p);
    forall g | g in agents ensures g == Monitoring || g in reactive {
      match g
      case Monitoring =>
      case Optimization =>
      case Schema =>
      case Recovery =>
    }
    if Monitoring in agents {
      assert agents == reactive + {Monitoring};
    } else {
      assert agents == reactive;
    }
  }

  /** Once the kill switch is on, a process begins at most one monitoring act and one act per enabled
      reactive agent before it stops. */
  lemma {:induction false} KillSwitchBound(c: Config, now: int, es: seq<Event>, p: Pid)
    requires p in c.procs
    ensures PauseKept(c, Run(c, now, es), p)
    ensures Run(c, now, es).paused ==> Run(c, now, es).attempts[p] <= ActsPerTick(c, p) == |c.enabled(p)|
  {
    ActsPerTickIs(c, p);
    hide ActsPerTick;
    if es != [] {
      var t := es[..|es| - 1];
      var s, e := Run(c, now, t), es[|es| - 1];
      KillSwitchBound(c, now, t, p);
      if Enabled(c, s, e) { StepKeepsPause(c, s, e, p); }
    }
  }

  /** Every change to the data or control plane has its committed, allowed audit row or its executed
      approval, no row or approval is the cause of two, and an executed row certifies its effect. */
  lemma AuditBeforeEffect(c: Config, now: int, es: seq<Event>)
    ensures var s := Run(c, now, es);
            && (forall x :: x in s.effects ==> Justified(c, s, x))
            && (forall k, l :: 0 <= k < l < |s.effects| ==> s.effects[k].source != s.effects[l].source)
            && (forall j :: 0 <= j < |s.approvals| ==> ApprovalJustified(c, s, j))
            && (forall i :: 0 <= i < |s.rows| && s.rows[i].executed ==>
                  Certified(c, s, i, s.rows[i].action, s.rows[i].ruling))
  {
    RunIsConsistent(c, now, es);
  }

  /** `executed` means status 'executed', and the 'executing' rows are exactly the unfinished acts:
      those a live process is working on and those whose process was cut short. */
  lemma ExecutingRowsAreTheUnfinishedActs(c: Config, now: int, es: seq<Event>, i: nat)
    requires i < |Run(c, now, es).rows|
    ensures var s := Run(c, now, es);
            && (s.rows[i].executed <==> s.rows[i].status == Executed)
            && (s.rows[i].status == Executing <==> i in s.abandoned || exists p :: Owns(c, s, p, i))
  {
    RunIsConsistent(c, now, es);
    assert RowConsistent(c, Run(c, now, es), i);
  }

  /** In shadow mode nothing is ever touched or queued; in approval mode the loop itself touches
      nothing; a denied or escalated row never has an effect in any mode. */
  lemma ModeSafety(c: Config, now: int, es: seq<Event>)
    ensures var s := Run(c, now, es);
            && (c.mode == Shadow ==> s.effects == [] && s.approvals == [])
            && (c.mode != Autonomous ==> forall x :: x in s.effects ==> x.source.ByApproval?)
            && (forall i :: 0 <= i < |s.rows| && s.rows[i].ruling != Allowed ==>
                  !s.rows[i].executed && NoEffectFrom(s, ByLoop(i)))
  {
    RunIsConsistent(c, now, es);
    hide Run, Step, Act, CanAct;
    var s := Run(c, now, es);
    if |s.approvals| > 0 { assert ApprovalJustified(c, s, 0); }
    if |s.effects| > 0 { assert Justified(c, s, s.effects[0]); }
    forall i | 0 <= i < |s.rows| && s.rows[i].ruling != Allowed
      ensures !s.rows[i].executed && NoEffectFrom(s, ByLoop(i))
    {
      forall k | 0 <= k < |s.effects| ensures s.effects[k].source != ByLoop(i) {
        assert Justified(c, s, s.effects[k]);
      }
      assert s.rows[i].executed ==> Certified(c, s, i, s.rows[i].action, s.rows[i].ruling);
    }
  }

  /** What the settings allow, in every run: the loop itself changes something, or executes an act that is more than
      an acknowledgement, only in autonomous mode and only for kinds that need no sign-off; queued are only such acts
      that need it, in approval mode or for their kind. */
  lemma SignOffIsRespected(c: Config, now: int, es: seq<Event>)
    ensures var s := Run(c, now, es);
            && (forall k :: 0 <= k < |s.effects| && s.effects[k].source.ByLoop? ==>
                  c.mode == Autonomous && s.effects[k].action.kind !in c.approvalRequired)
            && (forall i :: 0 <= i < |s.rows| && s.rows[i].executed
                            && s.rows[i].action.kind !in {NoAction, RaiseAnomaly, AllowCompatible} ==>
                  s.rows[i].ruling == Allowed && c.mode == Autonomous && s.rows[i].action.kind !in c.approvalRequired)
            && (forall j :: 0 <= j < |s.approvals| ==>
                  && s.approvals[j].action.kind !in {NoAction, RaiseAnomaly, AllowCompatible}
                  && (c.mode == NeedsApproval || (c.mode == Autonomous && s.approvals[j].action.kind in c.approvalRequired)))
  {
    var s := Run(c, now, es);
    RunIsConsistent(c, now, es);
    hide Run;
    forall k | 0 <= k < |s.effects| && s.effects[k].source.ByLoop?
      ensures c.mode == Autonomous && s.effects[k].action.kind !in c.approvalRequired
    {
      assert Justified(c, s, s.effects[k]);
    }
    forall j | 0 <= j < |s.approvals|
      ensures s.approvals[j].action.kind !in {NoAction, RaiseAnomaly, AllowCompatible}
      ensures c.mode == NeedsApproval || (c.mode == Autonomous && s.approvals[j].action.kind in c.approvalRequired)
    {
      assert ApprovalJustified(c, s, j);
    }
    forall i | 0 <= i < |s.rows| && s.rows[i].executed && s.rows[i].action.kind !in {NoAction, RaiseAnomaly, AllowCompatible}
      ensures s.rows[i].ruling == Allowed && c.mode == Autonomous && s.rows[i].action.kind !in c.approvalRequired
    {
      assert Certified(c, s, i, s.rows[i].action, s.rows[i].ruling);
    }
  }

  /** What the executing step does, told from the decision, the settings, the target and the handler's result. */
  lemma ExecutionMeans(c: Config, s: State, p: Pid, res: HandlerResult)
    requires WellFormed(c, s) && Enabled(c, s, Execute(p, res))
    ensures var ph, t := s.procs[p].phase, Step(c, s, Execute(p, res));
            var a, run := ph.a, c.runOf(p);
            var ack := a.kind in {NoAction, RaiseAnomaly, AllowCompatible};
            var signOff := c.mode == NeedsApproval || (c.mode == Autonomous && a.kind in c.approvalRequired);
            var runs := c.mode == Autonomous && a.kind !in c.approvalRequired;
            && t.procs[p].phase.Performed? && t.rows == s.rows
            && (!ph.d.allowed ==> !t.procs[p].phase.executed && t.effects == s.effects && t.approvals == s.approvals)
            && (ph.d.allowed && ack ==> t.procs[p].phase.executed && t.effects == s.effects && t.approvals == s.approvals)
            && (ph.d.allowed && !ack && signOff ==>
                  && !t.procs[p].phase.executed && t.effects == s.effects
                  && t.approvals == s.approvals + [Approval(run, a, ph.row, Pending)])
            && (ph.d.allowed && !ack && !signOff ==> t.approvals == s.approvals)
            && (ph.d.allowed && !ack && !signOff && !runs ==> !t.procs[p].phase.executed && t.effects == s.effects)
            && (ph.d.allowed && !ack && runs ==> Handling(a, run, res, t.procs[p].phase.executed, |t.effects| - |s.effects|))
  {}

  /** How an action's handler comes out: the run's own id is no target, escalations have no handler, an HTTP failure
      fails the act, and every other success changes something unless it is a rollback that found nothing. */
  ghost predicate Handling(a: Action, run: string, res: HandlerResult, executed: bool, effects: int) {
    if a.target == run then !executed && effects == 0
    else if a.kind in {Escalate, EscalateToHuman} then executed && effects == 0
    else match res
      case HttpFailure(touched) => !executed && effects == (if touched then 1 else 0)
      case Succeeds(changed) => executed && effects == (if a.kind != Rollback || changed then 1 else 0)
  }

  /** The cause of an effect, in the state before the step that made it and the one after. */
  ghost predicate Authorised(c: Config, s: State, e: Event, s': State, source: Source)
    requires WellFormed(c, s)
  {
    match source
    case ByLoop(i) =>
      e.Execute? && Owns(c, s, e.p, i) && i < |s.rows| && s.rows[i].ruling == Allowed && s.rows[i].status == Executing
    case ByApproval(j) =>
      && j < |s.approvals| && s.approvals[j].status == Pending
      && j < |s'.approvals| && s'.approvals[j].status in {ApprovalExecuted, ApprovalFailed}
  }

  /** The step that adds an effect finds its cause in place: an open allowed row of its own process, or
      an approval that is still pending and is decided by the same step. */
  lemma EffectStepIsAuthorised(c: Config, now: int, es: seq<Event>, e: Event)
    requires Enabled(c, Run(c, now, es), e)
    requires Step(c, Run(c, now, es), e).effects != Run(c, now, es).effects
    ensures var s := Run(c, now, es);
            var s' := Step(c, s, e);
            |s'.effects| == |s.effects| + 1 && Authorised(c, s, e, s', s'.effects[|s.effects|].source)
  {
    var s := Run(c, now, es);
    RunIsConsistent(c, now, es);
    if IsLocal(e) {
      if e.Execute? { ExecuteStep(c, s, e); } else { QuietStep(c, s, e); }
      assert OwnRowMatches(c, s, e.p);
    }
  }
}
