/** The runaway bound is met: with `n` loop processes on one run, some run records four plus `n`
    allowed actions of one agent at one moment. */
module GovernedTight {
  import opened Actions
  import opened Tally
  import opened GovernedLoop
  import opened GovernedAudit
  import opened GovernedSteps
  import Bids
  import LoopProcess

  /** The monitoring act process `p` keeps deciding on. */
  function ActOf(target: Pid -> string, p: Pid): Action { Action(Monitoring, RaiseAnomaly, target(p), 0.0) }

  /** The documented policy, no cap, and a target of its own for every process on the run. */
  ghost predicate Crowd(c: Config, run: string, target: Pid -> string) {
    && c.cap <= 0 && c.policy == SpecPolicy()
    && (forall p :: p in ProcsOf(c, run) ==> Monitoring in c.enabled(p))
    && (forall p, q :: p in ProcsOf(c, run) && q in ProcsOf(c, run) && p != q
                       ==> c.lockKey(target(p)) != c.lockKey(target(q)))
  }

  ghost predicate Spree(s: State, run: string, now: int) {
    && s.now == now && !s.paused
    && forall r :: r in s.rows ==> r.run == run && r.action.agent == Monitoring && r.ruling == Allowed && r.ts == now
  }

  lemma {:induction false} AllCounted(rows: seq<Row>, p: Row -> bool)
    requires forall r :: r in rows ==> p(r)
    ensures Count(rows, p) == |rows|
  {
    if rows != [] {
      assert forall r :: r in rows[..|rows| - 1] ==> r in rows;
      AllCounted(rows[..|rows| - 1], p);
    }
  }

  /** Below the limit the documented policy lets the act pass. */
  lemma Allows(c: Config, s: State, run: string, now: int, p: Pid, a: Action) returns (e: Event)
    requires WellFormed(c, s) && p in c.procs && s.procs[p] == Proc(Watching([]), Cleared(a))
    requires c.policy == SpecPolicy() && a.agent == Monitoring && a.kind == RaiseAnomaly
    requires c.runOf(p) == run && Spree(s, run, now) && |s.rows| < RATE_LIMIT
    ensures Enabled(c, s, e) && Goes(s, Step(c, s, e), p, Proc(Watching([]), Judged(a, GO)), s.locks, s.rows, s.approvals)
  {
    AllCounted(s.rows, ByAgentSince(run, Monitoring, now - TEN_MINUTES));
    var ctx := Context(0.0, 0.0, |s.rows|, Unknown, false);
    Judges(c, s, p, Watching([]), a, ctx);
    e := Judge(p, ctx, true);
  }

  /** A resting process reaches an allow decision, as long as fewer than five rows are there. */
  lemma Decide(c: Config, now: int, es: seq<Event>, run: string, target: Pid -> string, p: Pid) returns (es': seq<Event>)
    requires Crowd(c, run, target) && p in ProcsOf(c, run)
    requires var s := Run(c, now, es);
             Spree(s, run, now) && |s.rows| < RATE_LIMIT && s.procs[p] == Proc(Resting, Free) && c.lockKey(target(p)) !in s.locks
    ensures var s, a := Run(c, now, es), ActOf(target, p);
            Goes(s, Run(c, now, es'), p, Proc(Watching([]), Judged(a, GO)), s.locks[c.lockKey(target(p)) := p], s.rows, s.approvals)
  {
    hide Run, Step, Enabled;
    var a := ActOf(target, p);
    var s := Run(c, now, es);
    Starts(c, s, p, [a]);
    RunAppend(c, now, es, StartTick(p, [a]));
    var es1 := es + [StartTick(p, [a])];
    Locks(c, Run(c, now, es1), p, Watching([a]), a);
    RunAppend(c, now, es1, Attempt(p));
    var es2 := es1 + [Attempt(p)];
    Checks(c, Run(c, now, es2), p, Watching([]), a);
    RunAppend(c, now, es2, CheckCap(p));
    var es3 := es2 + [CheckCap(p)];
    var e := Allows(c, Run(c, now, es3), run, now, p, a);
    RunAppend(c, now, es3, e);
    es' := es3 + [e];
  }

  function RowOf(run: string, a: Action, now: int): Row { Row(run, a, Allowed, false, Executing, now) }

  lemma DecideAndWrite(c: Config, now: int, es: seq<Event>, run: string, target: Pid -> string, p: Pid) returns (es': seq<Event>)
    requires Crowd(c, run, target) && p in ProcsOf(c, run)
    requires var s := Run(c, now, es);
             Spree(s, run, now) && |s.rows| < RATE_LIMIT && s.procs[p] == Proc(Resting, Free) && c.lockKey(target(p)) !in s.locks
    ensures var s, a := Run(c, now, es), ActOf(target, p);
            Goes(s, Run(c, now, es'), p, Proc(Watching([]), Logged(a, GO, |s.rows|)), s.locks[c.lockKey(target(p)) := p],
                 s.rows + [RowOf(run, a, now)], s.approvals)
  {
    hide Run, Step, Enabled;
    var es1 := Decide(c, now, es, run, target, p);
    Writes(c, Run(c, now, es1), p, Watching([]), ActOf(target, p));
    RunAppend(c, now, es1, WriteAhead(p));
    es' := es1 + [WriteAhead(p)];
  }

  lemma DecideWriteCrash(c: Config, now: int, es: seq<Event>, run: string, target: Pid -> string, p: Pid) returns (es': seq<Event>)
    requires Crowd(c, run, target) && p in ProcsOf(c, run)
    requires var s := Run(c, now, es);
             Spree(s, run, now) && |s.rows| < RATE_LIMIT && s.procs[p] == Proc(Resting, Free) && c.lockKey(target(p)) !in s.locks
    ensures var s, a := Run(c, now, es), ActOf(target, p);
            Goes(s, Run(c, now, es'), p, Proc(Resting, Free), s.locks, s.rows + [RowOf(run, a, now)], s.approvals)
  {
    hide Run, Step, Enabled;
    var s := Run(c, now, es);
    var key := c.lockKey(target(p));
    var es1 := DecideAndWrite(c, now, es, run, target, p);
    Crashes(c, Run(c, now, es1), p, Watching([]), ActOf(target, p), |s.rows|);
    RunAppend(c, now, es1, CutShort(p));
    es' := es1 + [CutShort(p)];
    assert s.locks[key := p] - {key} == s.locks;
  }

  /** `n` rows, and nobody doing anything. */
  ghost predicate Rested(c: Config, s: State, run: string, now: int, n: nat)
    requires WellFormed(c, s)
  {
    Spree(s, run, now) && |s.rows| == n && s.locks == map[] && forall q :: q in c.procs ==> s.procs[q] == Proc(Resting, Free)
  }

  lemma RestedMore(c: Config, s: State, t: State, run: string, now: int, n: nat, p: Pid, a: Action)
    requires WellFormed(c, s) && WellFormed(c, t) && Rested(c, s, run, now, n) && a.agent == Monitoring
    requires Goes(s, t, p, Proc(Resting, Free), s.locks, s.rows + [RowOf(run, a, now)], s.approvals)
    ensures Rested(c, t, run, now, n + 1)
  {}

  /** One process alone: decide, write the row, crash; `n` times over, up to the limit. */
  lemma {:induction false} Repeat(c: Config, now: int, run: string, target: Pid -> string, p: Pid, n: nat) returns (es: seq<Event>)
    requires Crowd(c, run, target) && p in ProcsOf(c, run) && n <= RATE_LIMIT
    ensures Rested(c, Run(c, now, es), run, now, n)
  {
    if n == 0 {
      es := [];
    } else {
      var es0 := Repeat(c, now, run, target, p, n - 1);
      assert Run(c, now, es0).procs[p] == Proc(Resting, Free);
      hide Run, Crowd;
      es := DecideWriteCrash(c, now, es0, run, target, p);
      hide Rested, Goes;
      RestedMore(c, Run(c, now, es0), Run(c, now, es), run, now, n - 1, p, ActOf(target, p));
    }
  }

  ghost predicate Distinct(ps: seq<Pid>) { forall i, j :: 0 <= i < j < |ps| ==> ps[i] != ps[j] }

  /** Some processes hold an allow decision and their locks, the others rest; `k` rows are there. */
  ghost predicate Poised(c: Config, s: State, run: string, now: int, target: Pid -> string, ps: seq<Pid>, k: nat)
    requires WellFormed(c, s)
  {
    && Spree(s, run, now) && |s.rows| == k
    && (forall q :: q in ProcsOf(c, run) ==>
          s.procs[q] == if q in ps then Proc(Watching([]), Judged(ActOf(target, q), GO)) else Proc(Resting, Free))
    && (forall q :: q in ProcsOf(c, run) && q !in ps ==> c.lockKey(target(q)) !in s.locks)
  }

  /** They all decide before any of them writes. */
  lemma {:induction false} DecideAll(c: Config, now: int, run: string, target: Pid -> string, ps: seq<Pid>) returns (es: seq<Event>)
    requires Crowd(c, run, target) && ps != [] && Distinct(ps) && forall p :: p in ps ==> p in ProcsOf(c, run)
    ensures Poised(c, Run(c, now, es), run, now, target, ps, RATE_LIMIT - 1)
  {
    hide Run, Poised, Rested, Goes, Crowd;
    var k := |ps| - 1;
    var p := ps[k];
    var es0: seq<Event>;
    assert p in ps;
    if k == 0 {
      es0 := Repeat(c, now, run, target, p, RATE_LIMIT - 1);
      RestedIsPoised(c, Run(c, now, es0), run, now, target, RATE_LIMIT - 1);
      assert ps[..0] == [];
    } else {
      es0 := DecideAll(c, now, run, target, ps[..k]);
    }
    assert p !in ps[..k] && ps == ps[..k] + [p];
    PoisedReady(c, Run(c, now, es0), run, now, target, ps[..k], RATE_LIMIT - 1, p);
    es := Decide(c, now, es0, run, target, p);
    PoisedMore(c, Run(c, now, es0), Run(c, now, es), run, now, target, ps[..k], RATE_LIMIT - 1, p);
  }

  lemma RestedIsPoised(c: Config, s: State, run: string, now: int, target: Pid -> string, k: nat)
    requires WellFormed(c, s) && Rested(c, s, run, now, k)
    ensures Poised(c, s, run, now, target, [], k)
  {}

  lemma PoisedReady(c: Config, s: State, run: string, now: int, target: Pid -> string, ps: seq<Pid>, k: nat, p: Pid)
    requires WellFormed(c, s) && Poised(c, s, run, now, target, ps, k) && p in ProcsOf(c, run) && p !in ps
    ensures Spree(s, run, now) && |s.rows| == k && s.procs[p] == Proc(Resting, Free) && c.lockKey(target(p)) !in s.locks
  {}

  lemma PoisedMore(c: Config, s: State, t: State, run: string, now: int, target: Pid -> string, ps: seq<Pid>, k: nat, p: Pid)
    requires WellFormed(c, s) && WellFormed(c, t) && Crowd(c, run, target)
    requires Poised(c, s, run, now, target, ps, k) && p in ProcsOf(c, run) && p !in ps
    requires Goes(s, t, p, Proc(Watching([]), Judged(ActOf(target, p), GO)), s.locks[c.lockKey(target(p)) := p], s.rows, s.approvals)
    ensures Poised(c, t, run, now, target, ps + [p], k)
  {
    assert forall q :: q in ps + [p] <==> q in ps || q == p;
  }

  /** The first `n` of them wrote their row, the rest still hold their decision. */
  ghost predicate Written(c: Config, s: State, run: string, now: int, target: Pid -> string, ps: seq<Pid>, n: nat)
    requires WellFormed(c, s)
  {
    && Spree(s, run, now) && |s.rows| == RATE_LIMIT - 1 + n
    && forall i :: n <= i < |ps| ==> ps[i] in s.procs && s.procs[ps[i]] == Proc(Watching([]), Judged(ActOf(target, ps[i]), GO))
  }

  lemma WriteOne(c: Config, s: State, t: State, run: string, now: int, target: Pid -> string, ps: seq<Pid>, n: nat)
    requires WellFormed(c, s) && WellFormed(c, t) && Distinct(ps) && n < |ps| && c.runOf(ps[n]) == run
    requires Written(c, s, run, now, target, ps, n)
    requires Goes(s, t, ps[n], Proc(Watching([]), Logged(ActOf(target, ps[n]), GO, |s.rows|)), s.locks,
                  s.rows + [Row(c.runOf(ps[n]), ActOf(target, ps[n]), Allowed, false, Executing, s.now)], s.approvals)
    ensures Written(c, t, run, now, target, ps, n + 1)
  {}

  lemma PoisedIsWritten(c: Config, s: State, run: string, now: int, target: Pid -> string, ps: seq<Pid>)
    requires WellFormed(c, s) && Poised(c, s, run, now, target, ps, RATE_LIMIT - 1)
    requires forall i :: 0 <= i < |ps| ==> ps[i] in ProcsOf(c, run)
    ensures Written(c, s, run, now, target, ps, 0)
  {
    forall i | 0 <= i < |ps| ensures ps[i] in ps {}
  }

  lemma WrittenReady(c: Config, s: State, run: string, now: int, target: Pid -> string, ps: seq<Pid>, n: nat)
    requires WellFormed(c, s) && Written(c, s, run, now, target, ps, n) && n < |ps|
    ensures ps[n] in s.procs && s.procs[ps[n]] == Proc(Watching([]), Judged(ActOf(target, ps[n]), GO))
  {}

  lemma WriteNext(c: Config, now: int, es: seq<Event>, run: string, target: Pid -> string, ps: seq<Pid>, n: nat)
    requires Distinct(ps) && n < |ps| && ps[n] in ProcsOf(c, run)
    requires Written(c, Run(c, now, es), run, now, target, ps, n)
    ensures Written(c, Run(c, now, es + [WriteAhead(ps[n])]), run, now, target, ps, n + 1)
  {
    hide Run, Step, Enabled;
    var s := Run(c, now, es);
    WrittenReady(c, s, run, now, target, ps, n);
    Writes(c, s, ps[n], Watching([]), ActOf(target, ps[n]));
    RunAppend(c, now, es, WriteAhead(ps[n]));
    WriteOne(c, s, Run(c, now, es + [WriteAhead(ps[n])]), run, now, target, ps, n);
  }

  /** Then each writes its row. */
  lemma {:induction false} WriteAll(c: Config, now: int, es: seq<Event>, run: string, target: Pid -> string, ps: seq<Pid>, n: nat)
    returns (es': seq<Event>)
    requires Distinct(ps) && n <= |ps| && forall i :: 0 <= i < |ps| ==> ps[i] in ProcsOf(c, run)
    requires Poised(c, Run(c, now, es), run, now, target, ps, RATE_LIMIT - 1)
    ensures Written(c, Run(c, now, es'), run, now, target, ps, n)
  {
    hide Run, Poised, Written, ProcsOf, Distinct;
    if n == 0 {
      es' := es;
      PoisedIsWritten(c, Run(c, now, es), run, now, target, ps);
    } else {
      var es0 := WriteAll(c, now, es, run, target, ps, n - 1);
      WriteNext(c, now, es0, run, target, ps, n - 1);
      es' := es0 + [WriteAhead(ps[n - 1])];
    }
  }

  lemma {:induction false} Listed(ps: set<Pid>) returns (r: seq<Pid>)
    ensures Distinct(r) && |r| == |ps| && forall p :: p in r <==> p in ps
  {
    if ps == {} {
      r := [];
    } else {
      var p :| p in ps;
      var front := Listed(ps - {p});
      r := front + [p];
    }
  }

  /** However many processes a run has, if they have targets of their own some run meets the bound exactly. */
  lemma RunawayBoundIsMet(c: Config, now: int, run: string, target: Pid -> string) returns (es: seq<Event>)
    requires Crowd(c, run, target) && ProcsOf(c, run) != {}
    ensures |TenMinutesOf(Run(c, now, es).rows, run, Monitoring, now)| == 4 + |ProcsOf(c, run)|
  {
    var ps := Listed(ProcsOf(c, run));
    var es0 := DecideAll(c, now, run, target, ps);
    es := WriteAll(c, now, es0, run, target, ps, |ps|);
    AllCounted(Run(c, now, es).rows, AllowedIn(run, Monitoring, now));
    CountsAreSizes(Run(c, now, es).rows, run, "", Monitoring, now);
  }

  // --- The kill switch --------------------------------------------------------------------------

  function OwnTarget(g: Agent): string {
    match g
    case Monitoring => "m"
    case Optimization => "o"
    case Schema => "s"
    case Recovery => "r"
  }

  /** A proposal of every agent, each on a target of its own. */
  lemma {:induction false} AllBid(agents: set<Agent>) returns (ps: seq<Bids.Bid>)
    requires forall g :: g in agents ==> Bids.Reactive(g)
    ensures |ps| == |agents| && Bids.OnePerAgent(ps)
    ensures forall a :: a in ps ==> a.agent in agents && a.target == OwnTarget(a.agent)
    ensures forall i, j :: 0 <= i < j < |ps| ==> ps[i].target != ps[j].target
  {
    if agents == {} {
      ps := [];
    } else {
      var g :| g in agents;
      var front := AllBid(agents - {g});
      ps := front + [Action(g, NoAction, OwnTarget(g), 0.0)];
      forall i, j | 0 <= i < j < |ps| ensures ps[i].target != ps[j].target && ps[i].agent != ps[j].agent {
        assert front[i] in front;
      }
    }
  }

  /** Process `p` is between acts, and has begun `n` since it was paused. */
  ghost predicate Pausing(s: State, p: Pid, st: Stage, n: nat) {
    p in s.procs && p in s.attempts && s.paused && s.procs[p] == Proc(st, Free) && s.attempts[p] == n
  }

  /** It goes on to begin every act it has queued. */
  lemma {:induction false} BeginsAll(c: Config, now: int, es: seq<Event>, p: Pid, st: Stage, n: nat) returns (es': seq<Event>)
    requires !st.Resting? && Pausing(Run(c, now, es), p, st, n)
    ensures Pausing(Run(c, now, es'), p, st.(queue := []), n + |st.queue|)
    decreases |st.queue|
  {
    if st.queue == [] {
      es' := es;
    } else {
      var s := Run(c, now, es);
      var a, w := st.queue[0], LoopProcess.World(Context(0.0, 0.0, 0, Unknown, false), false, Succeeds(false));
      assert p in c.procs;
      var more := LoopProcess.ActOnIsARun(c, s, p, a, w);
      BeginsOne(c, s, p, st, n, a, w);
      LoopProcess.PlayExtendsRun(c, now, es, more);
      hide Run, LoopProcess.Play, LoopProcess.AfterActOn, Pausing;
      es' := BeginsAll(c, now, es + more, p, Dequeue(st), n + 1);
    }
  }

  lemma BeginsOne(c: Config, s: State, p: Pid, st: Stage, n: nat, a: Action, w: LoopProcess.World)
    requires !st.Resting? && st.queue != [] && Pausing(s, p, st, n)
    ensures Pausing(LoopProcess.AfterActOn(c, s, p, a, w), p, Dequeue(st), n + 1)
  {
    hide LoopProcess.ResultOf, LoopProcess.DecisionIn, LoopProcess.FinishedRow, LoopProcess.EffectsOf, LoopProcess.QueuedBy;
  }

  lemma PausesWatching(c: Config, now: int, p: Pid, watch: seq<Action>)
    requires p in c.procs && |watch| <= (if Monitoring in c.enabled(p) then 1 else 0) && forall a :: a in watch ==> a.agent == Monitoring
    ensures Pausing(Run(c, now, [StartTick(p, watch), SetPaused(true)]), p, Watching(watch), 0)
  {
    RunAppend(c, now, [], StartTick(p, watch));
    assert [] + [StartTick(p, watch)] == [StartTick(p, watch)];
    RunAppend(c, now, [StartTick(p, watch)], SetPaused(true));
    assert [StartTick(p, watch)] + [SetPaused(true)] == [StartTick(p, watch), SetPaused(true)];
  }

  lemma ReactsPaused(c: Config, now: int, es: seq<Event>, p: Pid, ps: seq<Bids.Bid>, n: nat)
    requires Pausing(Run(c, now, es), p, Watching([]), n) && p in c.procs
    requires Bids.OnePerAgent(ps) && forall a :: a in ps ==> a.agent in ReactiveEnabled(c, p)
    ensures Pausing(Run(c, now, es + [React(p, ps)]), p, Reacting(Bids.Resolve(ps)), n)
  {
    RunAppend(c, now, es, React(p, ps));
    hide Bids.Resolve, Bids.OnePerAgent, Run;
  }

  /** The kill switch's bound is met: paused just after a tick began, a process still begins one monitoring act
      and one act per enabled reactive agent. */
  lemma KillSwitchBoundIsMet(c: Config, now: int, p: Pid) returns (es: seq<Event>)
    requires p in c.procs
    ensures Run(c, now, es).paused && p in Run(c, now, es).attempts && Run(c, now, es).attempts[p] == ActsPerTick(c, p) == |c.enabled(p)|
  {
    ActsPerTickIs(c, p);
    var watch := if Monitoring in c.enabled(p) then [Action(Monitoring, NoAction, "m", 0.0)] else [];
    PausesWatching(c, now, p, watch);
    var ps := AllBid(ReactiveEnabled(c, p));
    Bids.ApartAllWin(ps);
    assert |watch| + |Bids.Resolve(ps)| == ActsPerTick(c, p);
    hide Run, Bids.Resolve, Bids.OnePerAgent, ReactiveEnabled, ActsPerTick;
    var es1 := BeginsAll(c, now, [StartTick(p, watch), SetPaused(true)], p, Watching(watch), 0);
    ReactsPaused(c, now, es1, p, ps, |watch|);
    es := BeginsAll(c, now, es1 + [React(p, ps)], p, Reacting(Bids.Resolve(ps)), |watch|);
  }
}
