/** Single steps of the protocol, spelled out for building runs: where the process goes, and what
    becomes of locks, rows and approvals. */
module GovernedSteps {
  import opened Actions
  import opened Tally
  import opened GovernedLoop
  import Bids

  const GO := Decision(true, false)

  /** From `s` to `t` process `p` comes to `proc`; locks, rows and approvals become these, effects stay. */
  ghost predicate Goes(s: State, t: State, p: Pid, proc: Proc, locks: map<int, Pid>, rows: seq<Row>, approvals: seq<Approval>) {
    && t.now == s.now && t.paused == s.paused && t.effects == s.effects
    && t.procs == s.procs[p := proc] && t.locks == locks && t.rows == rows && t.approvals == approvals
  }

  lemma Starts(c: Config, s: State, p: Pid, watch: seq<Action>)
    requires WellFormed(c, s) && p in c.procs && s.procs[p] == Proc(Resting, Free) && !s.paused
    requires |watch| <= (if Monitoring in c.enabled(p) then 1 else 0) && forall a :: a in watch ==> a.agent == Monitoring
    ensures var e := StartTick(p, watch);
            Enabled(c, s, e) && Goes(s, Step(c, s, e), p, Proc(Watching(watch), Free), s.locks, s.rows, s.approvals)
  {}

  lemma OneBidWins(a: Bids.Bid)
    ensures Bids.Resolve([a]) == [a] && Bids.OnePerAgent([a])
  {
    var i := Bids.OneMaximalWinnerPerTarget([a], a);
    Bids.WinnersAtMostProposals([a]);
  }

  lemma Reacts(c: Config, s: State, p: Pid, a: Action)
    requires WellFormed(c, s) && p in c.procs && s.procs[p] == Proc(Watching([]), Free)
    requires a.agent in ReactiveEnabled(c, p)
    ensures var e := React(p, [a]);
            Enabled(c, s, e) && Goes(s, Step(c, s, e), p, Proc(Reacting([a]), Free), s.locks, s.rows, s.approvals)
  {
    OneBidWins(a);
    hide Bids.Resolve;
  }

  lemma Locks(c: Config, s: State, p: Pid, st: Stage, a: Action)
    requires WellFormed(c, s) && p in c.procs && s.procs[p] == Proc(st, Free)
    requires !st.Resting? && st.queue == [a] && c.lockKey(a.target) !in s.locks
    ensures var e := Attempt(p);
            Enabled(c, s, e)
            && Goes(s, Step(c, s, e), p, Proc(st.(queue := []), Holding(a)), s.locks[c.lockKey(a.target) := p], s.rows, s.approvals)
  {
    assert st.queue[1..] == [];
  }

  lemma Checks(c: Config, s: State, p: Pid, st: Stage, a: Action)
    requires WellFormed(c, s) && p in c.procs && s.procs[p] == Proc(st, Holding(a)) && c.cap <= 0
    ensures var e := CheckCap(p);
            Enabled(c, s, e) && Goes(s, Step(c, s, e), p, Proc(st, Cleared(a)), s.locks, s.rows, s.approvals)
  {}

  lemma Judges(c: Config, s: State, p: Pid, st: Stage, a: Action, ctx: Context)
    requires WellFormed(c, s) && p in c.procs && s.procs[p] == Proc(st, Cleared(a))
    requires ctx.recent == Count(s.rows, ByAgentSince(c.runOf(p), a.agent, s.now - TEN_MINUTES))
    ensures var e := Judge(p, ctx, true);
            Enabled(c, s, e) && Goes(s, Step(c, s, e), p, Proc(st, Judged(a, c.policy(a, ctx))), s.locks, s.rows, s.approvals)
  {}

  lemma Writes(c: Config, s: State, p: Pid, st: Stage, a: Action)
    requires WellFormed(c, s) && p in c.procs && s.procs[p] == Proc(st, Judged(a, GO))
    ensures var e := WriteAhead(p);
            Enabled(c, s, e)
            && Goes(s, Step(c, s, e), p, Proc(st, Logged(a, GO, |s.rows|)), s.locks,
                    s.rows + [Row(c.runOf(p), a, Allowed, false, Executing, s.now)], s.approvals)
  {}

  lemma Submits(c: Config, s: State, p: Pid, st: Stage, a: Action, row: nat, res: HandlerResult)
    requires WellFormed(c, s) && p in c.procs && s.procs[p] == Proc(st, Logged(a, GO, row))
    requires !IsAuto(a.kind) && EffectiveMode(c, a.kind) == NeedsApproval
    ensures var e := Execute(p, res);
            Enabled(c, s, e)
            && Goes(s, Step(c, s, e), p, Proc(st, Performed(a, GO, row, false)), s.locks, s.rows,
                    s.approvals + [Approval(c.runOf(p), a, row, Pending)])
  {}

  lemma Records(c: Config, s: State, p: Pid, st: Stage, a: Action, row: nat, executed: bool)
    requires WellFormed(c, s) && p in c.procs && s.procs[p] == Proc(st, Performed(a, GO, row, executed)) && row < |s.rows|
    ensures var e := Record(p);
            Enabled(c, s, e)
            && Goes(s, Step(c, s, e), p, Proc(st, Updated(a)), s.locks,
                    s.rows[row := s.rows[row].(executed := executed, status := FinalStatus(s.rows[row].ruling, executed))],
                    s.approvals)
  {}

  lemma Releases(c: Config, s: State, p: Pid, st: Stage, a: Action)
    requires WellFormed(c, s) && p in c.procs && s.procs[p] == Proc(st, Updated(a))
    ensures var e := Release(p);
            Enabled(c, s, e)
            && Goes(s, Step(c, s, e), p, Proc(st, Free), s.locks - {c.lockKey(a.target)}, s.rows, s.approvals)
  {}

  lemma Ends(c: Config, s: State, p: Pid)
    requires WellFormed(c, s) && p in c.procs && s.procs[p] == Proc(Reacting([]), Free)
    ensures var e := EndTick(p);
            Enabled(c, s, e) && Goes(s, Step(c, s, e), p, Proc(Resting, Free), s.locks, s.rows, s.approvals)
  {}

  lemma Crashes(c: Config, s: State, p: Pid, st: Stage, a: Action, row: nat)
    requires WellFormed(c, s) && p in c.procs && s.procs[p] == Proc(st, Logged(a, GO, row))
    ensures var e := CutShort(p);
            Enabled(c, s, e)
            && Goes(s, Step(c, s, e), p, Proc(Resting, Free), s.locks - {c.lockKey(a.target)}, s.rows, s.approvals)
  {}
}
