/** The governed action protocol: any number of loop processes, an operator and a clock share the
    audit table, the approval queue, the lock table and the kill switch. Each event below is one
    committed transaction or one local step of a process; events interleave freely, and a process
    may be cut short (crash or exception) at any point. */
module GovernedLoop {
  import opened Actions
  import opened Tally
  import Bids

  type Pid = nat

  /** Time is counted in microseconds, the resolution of a timestamp. */
  const HOUR: int := 3_600_000_000
  const TEN_MINUTES: int := 600_000_000

  datatype Mode = Shadow | NeedsApproval | Autonomous

  /** Settings plus everything the model leaves arbitrary: the lock hash and the policy engine. */
  datatype Config = Config(
    procs: set<Pid>,
    runOf: Pid -> string,
    enabled: Pid -> set<Agent>,
    cap: int,
    mode: Mode,
    approvalRequired: set<Kind>,
    lockKey: string -> int,
    policy: (Action, Context) -> Decision)

  datatype Ruling = Allowed | Denied | Escalated
  datatype Status = Executing | Executed | StatusDenied | StatusEscalated | Failed

  /** One audit row; its position in the table stands for its action id. */
  datatype Row = Row(run: string, action: Action, ruling: Ruling, executed: bool, status: Status, ts: int)

  datatype ApprovalStatus = Pending | Rejected | ApprovalExecuted | ApprovalFailed

  /** One approval row. `origin`, the audit row that queued it, is kept for the proofs only. */
  datatype Approval = Approval(run: string, action: Action, origin: nat, status: ApprovalStatus)

  datatype Source = ByLoop(row: nat) | ByApproval(id: nat)

  /** A handler touched the data or control plane when the audit table had `after` rows. */
  datatype Effect = Effect(source: Source, action: Action, after: nat)

  /** Where a process is inside one guarded act. */
  datatype Phase =
    | Free
    | Holding(a: Action)                                          // target lock taken
    | Cleared(a: Action)                                          // blast-radius check passed
    | Judged(a: Action, d: Decision)                              // policy decision known
    | Logged(a: Action, d: Decision, row: nat)                    // write-ahead row committed
    | Performed(a: Action, d: Decision, row: nat, executed: bool) // executor returned
    | Updated(a: Action)                                          // outcome committed, lock still held

  /** Where a process is inside one tick; the queue holds the acts already decided on. */
  datatype Stage = Resting | Watching(queue: seq<Action>) | Reacting(queue: seq<Action>)

  datatype Proc = Proc(stage: Stage, phase: Phase)

  datatype State = State(
    now: int,
    rows: seq<Row>,
    approvals: seq<Approval>,
    effects: seq<Effect>,
    locks: map<int, Pid>,
    procs: map<Pid, Proc>,
    paused: bool,
    attempts: map<Pid, nat>,   // acts begun since the kill switch was last engaged
    abandoned: set<nat>)       // rows whose process was cut short before the outcome update

  /** How a handler ends. Whether a success changed anything only matters for a rollback. */
  datatype HandlerResult = Succeeds(changed: bool) | HttpFailure(touched: bool)

  datatype Event =
    | Tick(d: nat)
    | SetPaused(on: bool)
    | StartTick(p: Pid, watch: seq<Action>)
    | React(p: Pid, proposals: seq<Bids.Bid>)
    | EndTick(p: Pid)
    | Attempt(p: Pid)
    | CheckCap(p: Pid)
    | Judge(p: Pid, ctx: Context, reachable: bool)
    | WriteAhead(p: Pid)
    | Execute(p: Pid, res: HandlerResult)
    | Record(p: Pid)
    | Release(p: Pid)
    | CutShort(p: Pid)
    | Approve(id: nat, res: HandlerResult)
    | Reject(id: nat)

  // --- The source's decisions -------------------------------------------------------------------

  function EffectiveMode(c: Config, k: Kind): Mode {
    if c.mode == Autonomous && k in c.approvalRequired then NeedsApproval else c.mode
  }

  function RulingOf(d: Decision): Ruling {
    if d.escalate && !d.allowed then Escalated else if d.allowed then Allowed else Denied
  }

  function FinalStatus(r: Ruling, executed: bool): Status {
    if executed then Executed
    else match r
      case Denied => StatusDenied
      case Escalated => StatusEscalated
      case Allowed => Failed
  }

  datatype Applied = Applied(executed: bool, touched: bool)

  /** Run an action's handler, refusing the run id as a target first. */
  function ApplyAction(a: Action, run: string, res: HandlerResult): Applied {
    if !IsAuto(a.kind) && a.target == run then Applied(false, false)
    else if !HasHandler(a.kind) then Applied(true, false)
    else match res
      case Succeeds(changed) => Applied(true, AlwaysChanges(a.kind) || changed)
      case HttpFailure(touched) => Applied(false, touched)
  }

  /** The executor hands the action to its handler itself, now. */
  predicate RunsNow(c: Config, a: Action, d: Decision) {
    d.allowed && (IsAuto(a.kind) || EffectiveMode(c, a.kind) == Autonomous)
  }

  predicate Queues(c: Config, a: Action, d: Decision) {
    d.allowed && !IsAuto(a.kind) && EffectiveMode(c, a.kind) == NeedsApproval
  }

  // --- The counting queries ---------------------------------------------------------------------

  function ExecutedSince(run: string, target: string, since: int): Row -> bool {
    (r: Row) => r.executed && r.run == run && r.action.target == target && r.ts > since
  }

  function ByAgentSince(run: string, agent: Agent, since: int): Row -> bool {
    (r: Row) => r.run == run && r.action.agent == agent && r.ts >= since
  }

  /** Executed rows of one run and target in the hour after `w`. */
  function LandedIn(run: string, target: string, w: int): Row -> bool {
    (r: Row) => r.executed && r.run == run && r.action.target == target && w < r.ts <= w + HOUR
  }

  /** Allowed rows of one run and agent in the ten minutes from `w` on, both ends included. */
  function AllowedIn(run: string, agent: Agent, w: int): Row -> bool {
    (r: Row) => r.ruling == Allowed && r.run == run && r.action.agent == agent && w <= r.ts <= w + TEN_MINUTES
  }

  // --- Steps ------------------------------------------------------------------------------------

  predicate Busy(ph: Phase) { !ph.Free? }

  predicate OwnsRow(ph: Phase) { ph.Logged? || ph.Performed? }

  /** Counted by nobody yet, but able to become an executed row. */
  predicate InFlight(ph: Phase) { ph.Cleared? || ph.Judged? || OwnsRow(ph) }

  function ReactiveEnabled(c: Config, p: Pid): set<Agent> {
    c.enabled(p) * {Recovery, Schema, Optimization}
  }

  predicate WellFormed(c: Config, s: State) {
    s.procs.Keys == c.procs && s.attempts.Keys == c.procs
  }

  /** Events that are steps of process `e.p`; the others belong to the clock and the operator. */
  predicate IsLocal(e: Event) { !(e.Tick? || e.SetPaused? || e.Approve? || e.Reject?) }

  predicate CanAct(c: Config, s: State, e: Event)
    requires WellFormed(c, s) && IsLocal(e)
  {
    && e.p in c.procs
    && var pr := s.procs[e.p];
       match e
       case StartTick(p, watch) =>
         && pr == Proc(Resting, Free) && !s.paused
         && |watch| <= (if Monitoring in c.enabled(p) then 1 else 0)
         && forall a :: a in watch ==> a.agent == Monitoring
       case React(p, proposals) =>
         && pr == Proc(Watching([]), Free)
         && Bids.OnePerAgent(proposals)
         && forall a :: a in proposals ==> a.agent in ReactiveEnabled(c, p)
       case EndTick(_) => pr == Proc(Reacting([]), Free)
       case Attempt(_) => pr.phase.Free? && !pr.stage.Resting? && pr.stage.queue != []
       case CheckCap(_) => pr.phase.Holding?
       case Judge(p, ctx, _) =>
         && pr.phase.Cleared?
         && ctx.recent == Count(s.rows, ByAgentSince(c.runOf(p), pr.phase.a.agent, s.now - TEN_MINUTES))
       case WriteAhead(_) => pr.phase.Judged?
       case Execute(_, _) => pr.phase.Logged?
       case Record(_) => pr.phase.Performed? && pr.phase.row < |s.rows|
       case Release(_) => pr.phase.Updated?
       case CutShort(_) => true
  }

  /** The part of the state a process step may rewrite. */
  datatype Outcome = Outcome(
    proc: Proc, locks: map<int, Pid>, rows: seq<Row>, approvals: seq<Approval>, effects: seq<Effect>,
    begun: nat, abandoned: set<nat>)

  function Dequeue(st: Stage): Stage
    requires !st.Resting? && st.queue != []
  {
    if st.Watching? then Watching(st.queue[1..]) else Reacting(st.queue[1..])
  }

  function CapReached(c: Config, s: State, p: Pid, target: string): bool {
    c.cap > 0 && Count(s.rows, ExecutedSince(c.runOf(p), target, s.now - HOUR)) >= c.cap
  }

  /** One step of process `e.p`. */
  function Act(c: Config, s: State, e: Event): Outcome
    requires WellFormed(c, s) && IsLocal(e) && CanAct(c, s, e)
  {
    var p := e.p;
    var Proc(st, ph) := s.procs[p];
    var same := Outcome(s.procs[p], s.locks, s.rows, s.approvals, s.effects, 0, s.abandoned);
    match e
    case StartTick(_, watch) => same.(proc := Proc(Watching(watch), Free))
    case React(_, proposals) => same.(proc := Proc(Reacting(Bids.Resolve(proposals)), Free))
    case EndTick(_) => same.(proc := Proc(Resting, Free))
    case Attempt(_) =>
      var a := st.queue[0];
      if c.lockKey(a.target) in s.locks
      then same.(proc := Proc(Dequeue(st), Free), begun := 1)
      else same.(proc := Proc(Dequeue(st), Holding(a)), begun := 1, locks := s.locks[c.lockKey(a.target) := p])
    case CheckCap(_) =>
      if CapReached(c, s, p, ph.a.target)
      then same.(proc := Proc(st, Free), locks := s.locks - {c.lockKey(ph.a.target)})
      else same.(proc := Proc(st, Cleared(ph.a)))
    case Judge(_, ctx, reachable) =>
      same.(proc := Proc(st, Judged(ph.a, if reachable then c.policy(ph.a, ctx) else FAILSAFE)))
    case WriteAhead(_) =>
      same.(proc := Proc(st, Logged(ph.a, ph.d, |s.rows|)),
            rows := s.rows + [Row(c.runOf(p), ph.a, RulingOf(ph.d), false, Executing, s.now)])
    case Execute(_, res) =>
      if RunsNow(c, ph.a, ph.d) then
        var out := ApplyAction(ph.a, c.runOf(p), res);
        same.(proc := Proc(st, Performed(ph.a, ph.d, ph.row, out.executed)),
              effects := if out.touched then s.effects + [Effect(ByLoop(ph.row), ph.a, |s.rows|)] else s.effects)
      else
        same.(proc := Proc(st, Performed(ph.a, ph.d, ph.row, false)),
              approvals := if Queues(c, ph.a, ph.d)
                           then s.approvals + [Approval(c.runOf(p), ph.a, ph.row, Pending)] else s.approvals)
    case Record(_) =>
      var r := s.rows[ph.row];
      same.(proc := Proc(st, Updated(ph.a)),
            rows := s.rows[ph.row := r.(executed := ph.executed, status := FinalStatus(r.ruling, ph.executed))])
    case Release(_) => same.(proc := Proc(st, Free), locks := s.locks - {c.lockKey(ph.a.target)})
    case CutShort(_) =>
      same.(proc := Proc(Resting, Free),
            locks := if Busy(ph) then s.locks - {c.lockKey(ph.a.target)} else s.locks,
            abandoned := if OwnsRow(ph) then s.abandoned + {ph.row} else s.abandoned)
  }

  predicate Enabled(c: Config, s: State, e: Event)
    requires WellFormed(c, s)
  {
    if IsLocal(e) then CanAct(c, s, e)
    else if e.Approve? || e.Reject? then e.id < |s.approvals| && s.approvals[e.id].status == Pending
    else true
  }

  function Step(c: Config, s: State, e: Event): (s': State)
    requires WellFormed(c, s) && Enabled(c, s, e)
    ensures WellFormed(c, s')
  {
    if IsLocal(e) then
      var o := Act(c, s, e);
      s.(procs := s.procs[e.p := o.proc], locks := o.locks, rows := o.rows, approvals := o.approvals,
         effects := o.effects, attempts := s.attempts[e.p := s.attempts[e.p] + o.begun], abandoned := o.abandoned)
    else match e
      case Tick(d) => s.(now := s.now + d)
      case SetPaused(on) =>
        if on && !s.paused then s.(paused := true, attempts := map p | p in c.procs :: 0) else s.(paused := on)
      case Approve(id, res) =>
        var q := s.approvals[id];
        var out := ApplyAction(q.action, q.run, res);
        s.(approvals := s.approvals[id := q.(status := if out.executed then ApprovalExecuted else ApprovalFailed)],
           effects := if out.touched then s.effects + [Effect(ByApproval(id), q.action, |s.rows|)] else s.effects)
      case Reject(id) => s.(approvals := s.approvals[id := s.approvals[id].(status := Rejected)])
  }

  function Init(c: Config, now: int): State {
    State(now, [], [], [], map[], map p | p in c.procs :: Proc(Resting, Free), false,
          map p | p in c.procs :: 0, {})
  }

  /** Any list of events is a run: an event that is not enabled when its turn comes does nothing. */
  function Run(c: Config, now: int, es: seq<Event>): (s: State)
    ensures WellFormed(c, s)
  {
    if es == [] then Init(c, now)
    else
      var s := Run(c, now, es[..|es| - 1]);
      if Enabled(c, s, es[|es| - 1]) then Step(c, s, es[|es| - 1]) else s
  }

  lemma RunAppend(c: Config, now: int, es: seq<Event>, e: Event)
    ensures var t := Run(c, now, es);
            Run(c, now, es + [e]) == if Enabled(c, t, e) then Step(c, t, e) else t
  {
    assert (es + [e])[..|es|] == es;
  }
}
