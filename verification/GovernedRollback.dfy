/** The protocol over a live partition registry. A rollback's handler reads the active version, lists the
    versions and flips the pointer in three transactions, and anyone may step in between: when does an
    executed rollback change anything? */
module GovernedRollback {
  import opened Options
  import opened Actions
  import opened Tally
  import opened GovernedLoop
  import opened GovernedSteps
  import Bids
  import P = Partitions

  /** A setting: the protocol's configuration, the registry at the start, and the partition an action names. */
  datatype Scene = Scene(c: Config, now: int, reg: P.Registry, partOf: Action -> P.Part)

  /** Who runs a handler: a loop process for its own act, or whoever approves a queued action. */
  datatype Handler = OfLoop(p: Pid) | OfApproval(id: nat)

  /** How far a rollback's handler got: the active version it read, then what it chose to activate. The
      registries it read these from are kept for the proofs only. */
  datatype Flight =
    | Looked(cur: Option<nat>, seen: P.Registry)
    | Picked(cur: Option<nat>, to: Option<nat>, seen: P.Registry, listed: P.Registry)

  /** The protocol steps taken so far, the registry, the rollbacks under way, and the versions each gate listed. */
  datatype World = World(es: seq<Event>, reg: P.Registry, flights: map<Handler, Flight>, listed: map<Pid, set<nat>>)

  /** A protocol step, a read of the gate or of a rollback's handler, an approver that dies, or anyone
      else's change of the registry. */
  datatype Move =
    | Protocol(e: Event)
    | List(p: Pid)
    | Look(h: Handler, cur: Option<nat>)
    | Pick(h: Handler, to: Option<nat>)
    | Abandon(id: nat)
    | Register(t: P.Slot)
    | Activate(q: P.Part, v: nat)
    | Quarantine(q: P.Part)

  function Now(sc: Scene, w: World): (s: State)
    ensures WellFormed(sc.c, s)
  {
    Run(sc.c, sc.now, w.es)
  }

  /** The gate's prior-version question, asked in one state of the registry. */
  ghost predicate PriorVersion(reg: P.Registry, q: P.Part) {
    exists cur: Option<nat> :: P.Active(reg, q, cur) && P.HasPriorVersion(reg, q, cur)
  }

  /** What a rollback of `q` activates if nobody interferes. */
  ghost predicate Finds(reg: P.Registry, q: P.Part, r: Option<nat>) {
    exists cur: Option<nat> :: P.Active(reg, q, cur) && P.RollsBackTo(reg, q, cur, r)
  }

  function VersionsOf(reg: P.Registry, q: P.Part): set<nat> { set t | t in reg && t.part == q :: t.version }

  /** The gate's answer from the versions it listed earlier and the pointer now. */
  ghost predicate GateSays(versions: set<nat>, reg: P.Registry, q: P.Part) {
    exists cur: Option<nat> :: P.Active(reg, q, cur) && exists v :: v in versions && P.Below(v, cur)
  }

  /** The action whose handler `h` is running or about to run. */
  function Acting(c: Config, s: State, h: Handler): Option<Action>
    requires WellFormed(c, s)
  {
    match h
    case OfLoop(p) =>
      if p in c.procs && s.procs[p].phase.Logged? then
        var ph := s.procs[p].phase;
        if RunsNow(c, ph.a, ph.d) && HasHandler(ph.a.kind) && ph.a.target != c.runOf(p) then Some(ph.a) else None
      else None
    case OfApproval(id) =>
      if id < |s.approvals| && s.approvals[id].status == Pending then
        var q := s.approvals[id];
        if HasHandler(q.action.kind) && q.action.target != q.run then Some(q.action) else None
      else None
  }

  ghost predicate RollsBack(sc: Scene, w: World, h: Handler) {
    var a := Acting(sc.c, Now(sc, w), h);
    a.Some? && a.value.kind == Rollback
  }

  function PartOf(sc: Scene, w: World, h: Handler): P.Part
    requires RollsBack(sc, w, h)
  {
    sc.partOf(Acting(sc.c, Now(sc, w), h).value)
  }

  /** The handler a step runs to its end. */
  function HandlerOf(e: Event): Option<Handler> {
    match e
    case Execute(p, _) => Some(OfLoop(p))
    case Approve(id, _) => Some(OfApproval(id))
    case _ => None
  }

  /** The handler that is over after a step: it ended, or its process was cut short. */
  function Over(e: Event): set<Handler> {
    match e
    case Execute(p, _) => {OfLoop(p)}
    case CutShort(p) => {OfLoop(p)}
    case Approve(id, _) => {OfApproval(id)}
    case _ => {}
  }

  /** The registry once a step's handler is through: a rollback flips the pointer to what it picked. */
  function Handle(sc: Scene, w: World, e: Event): P.Registry {
    var h := HandlerOf(e);
    if h.None? then w.reg
    else match Acting(sc.c, Now(sc, w), h.value)
      case None => w.reg
      case Some(a) =>
        if a.kind == Rollback && h.value in w.flights && w.flights[h.value].Picked? && w.flights[h.value].to.Some?
        then P.Flip(w.reg, sc.partOf(a), w.flights[h.value].to.value)
        else if a.kind == QuarantinePartition then P.Quarantined(w.reg, sc.partOf(a))
        else w.reg
  }

  /** The gate answers from what it read. A rollback's handler ends once it has picked, and has an effect if
      the registry changes; quarantining always writes. Neither uses HTTP. */
  ghost predicate Agrees(sc: Scene, w: World, e: Event)
    requires Enabled(sc.c, Now(sc, w), e)
  {
    && (e.Judge? ==>
          var a := Now(sc, w).procs[e.p].phase.a;
          if a.kind == Rollback then e.p in w.listed && (e.ctx.prior <==> GateSays(w.listed[e.p], w.reg, sc.partOf(a)))
          else !e.ctx.prior)
    && (e.Reject? ==> OfApproval(e.id) !in w.flights)
    && (HandlerOf(e).Some? ==>
          var h := HandlerOf(e).value;
          var a := Acting(sc.c, Now(sc, w), h);
          && (a.Some? && a.value.kind == Rollback ==>
                h in w.flights && w.flights[h].Picked? && e.res == Succeeds(Handle(sc, w, e) != w.reg))
          && (a.Some? && a.value.kind == QuarantinePartition ==> e.res.Succeeds?))
  }

  ghost predicate Can(sc: Scene, w: World, m: Move) {
    match m
    case Protocol(e) => Enabled(sc.c, Now(sc, w), e) && Agrees(sc, w, e)
    case List(p) => p in sc.c.procs && Now(sc, w).procs[p].phase.Cleared?
    case Look(h, cur) => RollsBack(sc, w, h) && h !in w.flights && P.Active(w.reg, PartOf(sc, w, h), cur)
    case Pick(h, to) =>
      && RollsBack(sc, w, h) && h in w.flights && w.flights[h].Looked?
      && P.RollsBackTo(w.reg, PartOf(sc, w, h), w.flights[h].cur, to)
    case Register(t) => t !in w.reg
    case _ => true
  }

  ghost function After(sc: Scene, w: World, m: Move): World
    requires Can(sc, w, m)
  {
    match m
    case Protocol(e) =>
      World(w.es + [e], Handle(sc, w, e), w.flights - Over(e), if e.Judge? || e.CutShort? then w.listed - {e.p} else w.listed)
    case List(p) => w.(listed := w.listed[p := VersionsOf(w.reg, sc.partOf(Now(sc, w).procs[p].phase.a))])
    case Look(h, cur) => w.(flights := w.flights[h := Looked(cur, w.reg)])
    case Pick(h, to) => w.(flights := w.flights[h := Picked(w.flights[h].cur, to, w.flights[h].seen, w.reg)])
    case Abandon(id) => w.(flights := w.flights - {OfApproval(id)})
    case Register(t) => w.(reg := w.reg[t := false])
    case Activate(q, v) => w.(reg := P.Flip(w.reg, q, v))
    case Quarantine(q) => w.(reg := P.Quarantined(w.reg, q))
  }

  /** Any list of moves; one that cannot be made when its turn comes does nothing. */
  ghost function Play(sc: Scene, ms: seq<Move>): World {
    if ms == [] then World([], sc.reg, map[], map[])
    else
      var w := Play(sc, ms[..|ms| - 1]);
      if Can(sc, w, ms[|ms| - 1]) then After(sc, w, ms[|ms| - 1]) else w
  }

  lemma PlayOn(sc: Scene, ms: seq<Move>, m: Move)
    requires Can(sc, Play(sc, ms), m)
    ensures Play(sc, ms + [m]) == After(sc, Play(sc, ms), m)
  {
    assert (ms + [m])[..|ms|] == ms;
  }

  // --- What every run keeps ---------------------------------------------------------------------

  /** Versions are never unregistered, and no move leaves two of a partition active. */
  lemma MoveKeepsRegistry(sc: Scene, w: World, m: Move)
    requires Can(sc, w, m)
    ensures w.reg.Keys <= After(sc, w, m).reg.Keys
    ensures P.OneActive(w.reg) ==> P.OneActive(After(sc, w, m).reg)
  {
    hide Can, Run;
  }

  lemma {:induction false} OneActiveThroughout(sc: Scene, ms: seq<Move>)
    requires P.OneActive(sc.reg)
    ensures P.OneActive(Play(sc, ms).reg)
  {
    if ms != [] {
      hide P.OneActive, Can, After;
      OneActiveThroughout(sc, ms[..|ms| - 1]);
      var w, m := Play(sc, ms[..|ms| - 1]), ms[|ms| - 1];
      if Can(sc, w, m) { MoveKeepsRegistry(sc, w, m); }
    }
  }

  /** What a rollback under way holds was true when it was read, and what it picked is still registered. */
  ghost predicate FlightOk(sc: Scene, w: World, h: Handler)
    requires h in w.flights
  {
    && RollsBack(sc, w, h)
    && var f, q := w.flights[h], PartOf(sc, w, h);
       && P.Active(f.seen, q, f.cur)
       && (f.Picked? ==> P.RollsBackTo(f.listed, q, f.cur, f.to) && f.listed.Keys <= w.reg.Keys)
  }

  ghost predicate FlightsOk(sc: Scene, w: World) { forall h :: h in w.flights ==> FlightOk(sc, w, h) }

  /** A step leaves every handler's action alone, except where the handler is over or its approval rejected. */
  lemma StepKeepsActing(c: Config, s: State, e: Event, h: Handler)
    requires WellFormed(c, s) && Enabled(c, s, e) && Acting(c, s, h).Some?
    requires h !in Over(e) && !(e.Reject? && h == OfApproval(e.id))
    ensures Acting(c, Step(c, s, e), h) == Acting(c, s, h)
  {
    match h
    case OfLoop(p) => LoggedStays(c, s, e, p);
    case OfApproval(id) => PendingStays(c, s, e, id);
  }

  lemma LoggedStays(c: Config, s: State, e: Event, p: Pid)
    requires WellFormed(c, s) && Enabled(c, s, e) && p in c.procs && s.procs[p].phase.Logged?
    requires !(e.Execute? && e.p == p) && !(e.CutShort? && e.p == p)
    ensures Step(c, s, e).procs[p] == s.procs[p]
  {
    hide Bids.Resolve, Bids.OnePerAgent, Count, RunsNow, ApplyAction, CapReached, RulingOf, FinalStatus, Dequeue, Queues;
    if IsLocal(e) {
      assert e.p != p;
      hide Act, CanAct;
    }
  }

  lemma PendingStays(c: Config, s: State, e: Event, id: nat)
    requires WellFormed(c, s) && Enabled(c, s, e) && id < |s.approvals|
    requires !(e.Approve? && e.id == id) && !(e.Reject? && e.id == id)
    ensures id < |Step(c, s, e).approvals| && Step(c, s, e).approvals[id] == s.approvals[id]
  {
    hide Bids.Resolve, Bids.OnePerAgent, Count, RunsNow, ApplyAction, CapReached, RulingOf, FinalStatus, Dequeue;
    if IsLocal(e) {
      assert s.approvals <= Act(c, s, e).approvals;
    }
  }

  lemma MoveKeepsFlight(sc: Scene, w: World, m: Move, h: Handler)
    requires Can(sc, w, m) && h in After(sc, w, m).flights && (h in w.flights ==> FlightOk(sc, w, h))
    ensures FlightOk(sc, After(sc, w, m), h)
  {
    MoveKeepsRegistry(sc, w, m);
    hide P.Active, P.RollsBackTo, P.Flip, P.Quarantined, P.OneActive, Run, Step, Enabled, Acting, Handle;
    if m.Protocol? {
      RunAppend(sc.c, sc.now, w.es, m.e);
      StepKeepsActing(sc.c, Now(sc, w), m.e, h);
    }
  }

  lemma {:induction false} FlightsOkThroughout(sc: Scene, ms: seq<Move>)
    ensures FlightsOk(sc, Play(sc, ms))
  {
    if ms != [] {
      hide FlightOk, Can, After;
      FlightsOkThroughout(sc, ms[..|ms| - 1]);
      var w, m := Play(sc, ms[..|ms| - 1]), ms[|ms| - 1];
      if Can(sc, w, m) {
        forall h | h in After(sc, w, m).flights ensures FlightOk(sc, After(sc, w, m), h) { MoveKeepsFlight(sc, w, m, h); }
      }
    }
  }

  // --- The exact condition ----------------------------------------------------------------------

  /** The step says executed whatever the rollback found; it leaves an effect exactly when it changed something. */
  lemma RollbackStep(c: Config, s: State, e: Event)
    requires WellFormed(c, s) && Enabled(c, s, e) && HandlerOf(e).Some?
    requires var a := Acting(c, s, HandlerOf(e).value); a.Some? && a.value.kind == Rollback && e.res.Succeeds?
    ensures var t := Step(c, s, e);
            && (e.Execute? ==> t.procs[e.p].phase.Performed? && t.procs[e.p].phase.executed)
            && (e.Approve? ==> t.approvals[e.id].status == ApprovalExecuted)
            && (t.effects != s.effects <==> e.res.changed)
  {}

  lemma FlipChangesIff(reg: P.Registry, q: P.Part, v: nat)
    requires P.OneActive(reg) && P.Slot(q, v) in reg
    ensures P.Flip(reg, q, v) != reg <==> !P.IsActive(reg, q, v)
  {
    var after := P.Flip(reg, q, v);
    assert after[P.Slot(q, v)];
    if P.IsActive(reg, q, v) {
      forall t | t in reg ensures after[t] == reg[t] {}
      assert after.Keys == reg.Keys;
    }
  }

  /** The version a rollback is about to activate, if it picked one that is not active already. */
  ghost predicate WillMove(sc: Scene, w: World, h: Handler)
    requires RollsBack(sc, w, h) && h in w.flights && w.flights[h].Picked?
  {
    var to := w.flights[h].to;
    to.Some? && !P.IsActive(w.reg, PartOf(sc, w, h), to.value)
  }

  /** In every run, whatever others did between its reads and its flip: an executed rollback changes the
      registry, and counts as an effect, exactly when it picked a version that is not active at the flip. */
  lemma RollbackChangesIff(sc: Scene, ms: seq<Move>, e: Event)
    requires P.OneActive(sc.reg) && Can(sc, Play(sc, ms), Protocol(e))
    requires HandlerOf(e).Some? && RollsBack(sc, Play(sc, ms), HandlerOf(e).value)
    ensures var w, h := Play(sc, ms), HandlerOf(e).value;
            var w' := After(sc, w, Protocol(e));
            var s, t := Now(sc, w), Now(sc, w');
            && (e.Execute? ==> t.procs[e.p].phase.Performed? && t.procs[e.p].phase.executed)
            && (e.Approve? ==> e.id < |t.approvals| && t.approvals[e.id].status == ApprovalExecuted)
            && (t.effects != s.effects <==> WillMove(sc, w, h))
            && (w'.reg != w.reg <==> WillMove(sc, w, h))
  {
    var w, h := Play(sc, ms), HandlerOf(e).value;
    OneActiveThroughout(sc, ms);
    FlightsOkThroughout(sc, ms);
    assert FlightOk(sc, w, h);
    MayProtocol(sc, w, e);
    hide P.OneActive, Play, Run, Step, Enabled, Acting, Agrees, Can, After, FlightOk, FlightsOk, Handle, RollsBack, WillMove, Now;
    LandingChangesIff(sc, w, e);
    RollbackSteps(sc, w, e);
  }

  lemma MayProtocol(sc: Scene, w: World, e: Event)
    requires Can(sc, w, Protocol(e))
    ensures Enabled(sc.c, Now(sc, w), e) && Agrees(sc, w, e)
    ensures After(sc, w, Protocol(e)).es == w.es + [e] && After(sc, w, Protocol(e)).reg == Handle(sc, w, e)
  {}

  /** A rollback about to end flips to what it picked, and says whether that changes anything. */
  lemma LandingChangesIff(sc: Scene, w: World, e: Event)
    requires P.OneActive(w.reg) && Enabled(sc.c, Now(sc, w), e) && Agrees(sc, w, e) && HandlerOf(e).Some?
    requires RollsBack(sc, w, HandlerOf(e).value) && HandlerOf(e).value in w.flights && FlightOk(sc, w, HandlerOf(e).value)
    ensures w.flights[HandlerOf(e).value].Picked? && e.res == Succeeds(WillMove(sc, w, HandlerOf(e).value))
    ensures Handle(sc, w, e) != w.reg <==> WillMove(sc, w, HandlerOf(e).value)
  {
    var h := HandlerOf(e).value;
    var f, q := w.flights[h], PartOf(sc, w, h);
    assert f.Picked? && e.res == Succeeds(Handle(sc, w, e) != w.reg);
    assert f.to.Some? ==> P.Slot(q, f.to.value) in w.reg;
    assert Handle(sc, w, e) == if f.to.Some? then P.Flip(w.reg, q, f.to.value) else w.reg;
    hide P.OneActive, P.IsActive, P.Flip, P.Active, P.RollsBackTo, Run, Acting, Enabled, Handle, FlightOk, Agrees, PartOf;
    if f.to.Some? { FlipChangesIff(w.reg, q, f.to.value); }
  }

  lemma RollbackSteps(sc: Scene, w: World, e: Event)
    requires Enabled(sc.c, Now(sc, w), e) && HandlerOf(e).Some? && RollsBack(sc, w, HandlerOf(e).value) && e.res.Succeeds?
    ensures forall w': World | w'.es == w.es + [e] ::
              var s, t := Now(sc, w), Now(sc, w');
              && (e.Execute? ==> e.p in t.procs && t.procs[e.p].phase.Performed? && t.procs[e.p].phase.executed)
              && (e.Approve? ==> e.id < |t.approvals| && t.approvals[e.id].status == ApprovalExecuted)
              && (t.effects != s.effects <==> e.res.changed)
  {
    RunAppend(sc.c, sc.now, w.es, e);
    RollbackStep(sc.c, Now(sc, w), e);
    StepKeepsIndex(sc.c, Now(sc, w), e);
    hide Run, Step, Acting;
  }

  lemma StepKeepsIndex(c: Config, s: State, e: Event)
    requires WellFormed(c, s) && Enabled(c, s, e)
    ensures e.Execute? ==> e.p in Step(c, s, e).procs
    ensures e.Approve? ==> e.id < |Step(c, s, e).approvals|
  {}

  // --- Undisturbed rollbacks --------------------------------------------------------------------

  lemma SameActive(reg: P.Registry, q: P.Part, a: Option<nat>, b: Option<nat>)
    requires P.OneActive(reg) && P.Active(reg, q, a) && P.Active(reg, q, b)
    ensures a == b
  {
    if a.Some? && b.Some? {
      assert P.Slot(q, a.value) in reg && P.Slot(q, b.value) in reg;
    }
  }

  /** Asked in the same state, the gate's question is answered yes exactly when the rollback finds a version. */
  lemma FindsIffPrior(reg: P.Registry, q: P.Part, r: Option<nat>)
    requires P.OneActive(reg) && Finds(reg, q, r)
    ensures r.Some? <==> PriorVersion(reg, q)
    ensures r.Some? ==> P.Slot(q, r.value) in reg && !P.IsActive(reg, q, r.value)
  {
    var cur: Option<nat> :| P.Active(reg, q, cur) && P.RollsBackTo(reg, q, cur, r);
    P.GateAgreesWithRollback(reg, q, cur, r);
    forall other: Option<nat> | P.Active(reg, q, other) ensures other == cur { SameActive(reg, q, cur, other); }
  }

  /** The partition's pointer stands in `b` where it stood in `a`. */
  ghost predicate SamePointer(a: P.Registry, b: P.Registry, q: P.Part) {
    forall v: nat :: P.IsActive(a, q, v) <==> P.IsActive(b, q, v)
  }

  lemma PointerStands(a: P.Registry, b: P.Registry, q: P.Part, cur: Option<nat>)
    requires SamePointer(a, b, q)
    ensures P.Active(a, q, cur) <==> P.Active(b, q, cur)
  {}

  /** The handler's latest look was move `i`, and since then the partition's pointer never moved. */
  ghost predicate Quiet(sc: Scene, ms: seq<Move>, i: nat, h: Handler, q: P.Part) {
    && i < |ms| && ms[i].Look? && ms[i].h == h && Can(sc, Play(sc, ms[..i]), ms[i])
    && (forall k :: i < k < |ms| && ms[k].Look? ==> ms[k].h != h)
    && (forall k :: i <= k <= |ms| ==> SamePointer(Play(sc, ms[..i]).reg, Play(sc, ms[..k]).reg, q))
  }

  /** The flight read its registries at these moves. */
  ghost predicate ReadAt(sc: Scene, ms: seq<Move>, i: nat, n: nat, f: Flight)
    requires i < n <= |ms|
  {
    && f.seen == Play(sc, ms[..i]).reg
    && (f.Picked? ==> exists j :: i < j < n && ms[j].Pick? && f.listed == Play(sc, ms[..j]).reg)
  }

  lemma {:induction false} FlightReads(sc: Scene, ms: seq<Move>, i: nat, h: Handler, n: nat)
    requires i < n <= |ms| && ms[i].Look? && ms[i].h == h && Can(sc, Play(sc, ms[..i]), ms[i])
    requires forall k :: i < k < |ms| && ms[k].Look? ==> ms[k].h != h
    requires h in Play(sc, ms[..n]).flights
    ensures ReadAt(sc, ms, i, n, Play(sc, ms[..n]).flights[h])
  {
    hide *;
    var w, m := Play(sc, ms[..n - 1]), ms[n - 1];
    PlayStep(sc, ms, n);
    if n == i + 1 {
      LookBegins(sc, w, m);
      BegunReadAt(sc, ms, i, Play(sc, ms[..n]).flights[h]);
    } else {
      if Can(sc, w, m) { FlightMoves(sc, w, m, h); } else { UnmovedFlight(w.flights[h], m, w.reg); }
      FlightReads(sc, ms, i, h, n - 1);
      StillReadAt(sc, ms, i, n, w.flights[h], Play(sc, ms[..n]).flights[h]);
    }
  }

  lemma PlayStep(sc: Scene, ms: seq<Move>, n: nat)
    requires 0 < n <= |ms|
    ensures var w, m := Play(sc, ms[..n - 1]), ms[n - 1];
            Play(sc, ms[..n]) == if Can(sc, w, m) then After(sc, w, m) else w
  {
    assert ms[..n][..n - 1] == ms[..n - 1];
  }

  lemma LookBegins(sc: Scene, w: World, m: Move)
    requires m.Look? && Can(sc, w, m)
    ensures m.h in After(sc, w, m).flights && After(sc, w, m).flights[m.h] == Looked(m.cur, w.reg)
  {}

  lemma UnmovedFlight(f: Flight, m: Move, reg: P.Registry)
    ensures OnlyPicked(f, f, m, reg)
  {}

  ghost predicate OnlyPicked(f: Flight, g: Flight, m: Move, reg: P.Registry) {
    g == f || (m.Pick? && g.Picked? && g.seen == f.seen && g.listed == reg)
  }

  lemma BegunReadAt(sc: Scene, ms: seq<Move>, i: nat, f: Flight)
    requires i < |ms| && f.Looked? && f.seen == Play(sc, ms[..i]).reg
    ensures ReadAt(sc, ms, i, i + 1, f)
  {}

  lemma StillReadAt(sc: Scene, ms: seq<Move>, i: nat, n: nat, f: Flight, g: Flight)
    requires i < n - 1 < |ms| && ReadAt(sc, ms, i, n - 1, f) && OnlyPicked(f, g, ms[n - 1], Play(sc, ms[..n - 1]).reg)
    ensures ReadAt(sc, ms, i, n, g)
  {
    hide Play;
  }

  /** A flight that was not just begun was there before, and only its pick changed it. */
  lemma FlightMoves(sc: Scene, w: World, m: Move, h: Handler)
    requires Can(sc, w, m) && h in After(sc, w, m).flights && !(m.Look? && m.h == h)
    ensures h in w.flights
    ensures OnlyPicked(w.flights[h], After(sc, w, m).flights[h], m, w.reg)
  {}

  /** When nobody moves the partition's pointer between a rollback's look and its flip, the rollback changes
      something exactly when the gate's question would be answered yes as it lists the versions. */
  lemma UndisturbedRollbackChangesIff(sc: Scene, ms: seq<Move>, i: nat, e: Event) returns (j: nat)
    requires P.OneActive(sc.reg) && Can(sc, Play(sc, ms), Protocol(e))
    requires HandlerOf(e).Some? && RollsBack(sc, Play(sc, ms), HandlerOf(e).value)
    requires Quiet(sc, ms, i, HandlerOf(e).value, PartOf(sc, Play(sc, ms), HandlerOf(e).value))
    ensures i < j < |ms| && ms[j].Pick?
    ensures var w := Play(sc, ms);
            After(sc, w, Protocol(e)).reg != w.reg
            <==> PriorVersion(Play(sc, ms[..j]).reg, PartOf(sc, w, HandlerOf(e).value))
  {
    var w, h := Play(sc, ms), HandlerOf(e).value;
    var q := PartOf(sc, w, h);
    assert ms[..|ms|] == ms;
    RollbackChangesIff(sc, ms, e);
    FlightsOkThroughout(sc, ms);
    assert FlightOk(sc, w, h);
    FlightReads(sc, ms, i, h, |ms|);
    j :| i < j < |ms| && ms[j].Pick? && w.flights[h].listed == Play(sc, ms[..j]).reg;
    OneActiveThroughout(sc, ms[..j]);
    assert SamePointer(Play(sc, ms[..i]).reg, Play(sc, ms[..j]).reg, q) && SamePointer(Play(sc, ms[..i]).reg, w.reg, q);
    hide Play, Can, Now, P.OneActive, P.Active, P.IsActive, After, FlightsOk, Quiet, Acting;
    PickIffPrior(w.flights[h], w.reg, q);
  }

  lemma PickIffPrior(f: Flight, reg: P.Registry, q: P.Part)
    requires f.Picked? && P.Active(f.seen, q, f.cur) && P.RollsBackTo(f.listed, q, f.cur, f.to) && P.OneActive(f.listed)
    requires SamePointer(f.seen, f.listed, q) && SamePointer(f.seen, reg, q)
    ensures f.to.Some? && !P.IsActive(reg, q, f.to.value) <==> PriorVersion(f.listed, q)
  {
    PointerStands(f.seen, f.listed, q, f.cur);
    FindsIffPrior(f.listed, q, f.to);
  }
}
