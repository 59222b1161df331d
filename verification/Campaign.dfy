/** The campaign supervisor: one pending run per child process, between guards, until an exit. */
module Campaign {
  import opened Options

  datatype Terminal =
    Complete | Stopped | TokenCeiling | UnhealthyAbort | FailureAbort | DegradedAbort | CodeChanged

  datatype Config = Config(
    live: seq<bool>,              // which arms call a paid model
    maxTokens: Option<int>,
    maxFailures: int,
    healthRetry: int,
    healthMax: int,
    degradedThreshold: int,
    degradedAbort: int,
    interleave: bool)

  /** What one child did: exit code, whether its run reached the manifest, the change it made to the
      counted tokens (negative when it replaced the rows of a killed attempt), degraded calls. */
  datatype Child = Child(code: int, recorded: bool, tokens: int, degraded: int)

  /** Everything outside the supervisor, indexed by how many children ran before. */
  datatype World = World(
    stopFile: nat -> bool,
    codeChanged: nat -> bool,
    healthy: (nat, nat) -> bool,
    child: nat -> Child)

  /** One finished child: the arm and profile position it was started for, and how it went. */
  datatype Entry = Entry(arm: nat, position: nat, live: bool, child: Child)

  predicate Failed(e: Entry) { e.child.code != 0 || !e.child.recorded }

  // --- Waiting for health -----------------------------------------------------------------------

  datatype Wait = Undecided | Healthy | GaveUp

  /** The health wait after at most `n` probes, the first being probe `k` with `waited` elapsed. */
  function Waiting(c: Config, probe: nat -> bool, k: nat, waited: int, n: nat): Wait
    decreases n
  {
    if n == 0 then Undecided
    else if probe(k) then Healthy
    else if waited >= c.healthMax then GaveUp
    else Waiting(c, probe, k + 1, waited + c.healthRetry, n - 1)
  }

  lemma {:induction false} PositiveRetryDecides(c: Config, probe: nat -> bool, k: nat, waited: int) returns (n: nat)
    requires c.healthRetry > 0
    ensures Waiting(c, probe, k, waited, n) != Undecided
    decreases c.healthMax - waited
  {
    if probe(k) || waited >= c.healthMax {
      n := 1;
    } else {
      n := PositiveRetryDecides(c, probe, k + 1, waited + c.healthRetry);
      n := n + 1;
    }
  }

  lemma {:induction false} HealthDecides(c: Config, probe: nat -> bool, k: nat, waited: int, h: nat)
    requires k <= h && probe(h)
    ensures Waiting(c, probe, k, waited, h - k + 1) != Undecided
    decreases h - k
  {
    if !probe(k) && waited < c.healthMax { HealthDecides(c, probe, k + 1, waited + c.healthRetry, h); }
  }

  lemma {:induction false} StuckForever(c: Config, probe: nat -> bool, k: nat, waited: int, n: nat)
    requires c.healthRetry <= 0 && waited < c.healthMax && forall h: nat :: !probe(h)
    ensures Waiting(c, probe, k, waited, n) == Undecided
    decreases n
  {
    if n > 0 { StuckForever(c, probe, k + 1, waited + c.healthRetry, n - 1); }
  }

  /** The condition under which a wait ends. */
  ghost predicate WaitEnds(c: Config, probe: nat -> bool) {
    c.healthRetry > 0 || c.healthMax <= 0 || exists h: nat :: probe(h)
  }

  /** The health wait ends exactly when it makes progress, may not wait at all, or health returns. */
  lemma WaitEndsIff(c: Config, probe: nat -> bool)
    ensures (exists n :: Waiting(c, probe, 0, 0, n) != Undecided)
            <==> WaitEnds(c, probe)
  {
    if c.healthRetry > 0 {
      var n := PositiveRetryDecides(c, probe, 0, 0);
    } else if c.healthMax <= 0 {
      assert Waiting(c, probe, 0, 0, 1) != Undecided;
    } else if h: nat :| probe(h) {
      HealthDecides(c, probe, 0, 0, h);
    } else {
      forall n ensures Waiting(c, probe, 0, 0, n) == Undecided { StuckForever(c, probe, 0, 0, n); }
    }
  }

  lemma WaitDecides(c: Config, probe: nat -> bool) returns (n: nat)
    requires WaitEnds(c, probe)
    ensures Waiting(c, probe, 0, 0, n) != Undecided
  {
    WaitEndsIff(c, probe);
    n :| Waiting(c, probe, 0, 0, n) != Undecided;
  }

  /** What the wait comes to, however many probes it takes. */
  ghost predicate Waits(c: Config, probe: nat -> bool, result: Wait) {
    exists n :: Waiting(c, probe, 0, 0, n) == result && result != Undecided
  }

  lemma {:induction false} WaitingSettles(c: Config, probe: nat -> bool, k: nat, waited: int, n: nat, m: nat)
    requires Waiting(c, probe, k, waited, n) != Undecided && n <= m
    ensures Waiting(c, probe, k, waited, m) == Waiting(c, probe, k, waited, n)
    decreases n
  {
    if !probe(k) && waited < c.healthMax { WaitingSettles(c, probe, k + 1, waited + c.healthRetry, n - 1, m - 1); }
  }

  lemma WaitsOnce(c: Config, probe: nat -> bool, x: Wait, y: Wait)
    requires Waits(c, probe, x) && Waits(c, probe, y)
    ensures x == y
  {
    var n: nat :| Waiting(c, probe, 0, 0, n) == x && x != Undecided;
    var m: nat :| Waiting(c, probe, 0, 0, m) == y && y != Undecided;
    if n <= m { WaitingSettles(c, probe, 0, 0, n, m); } else { WaitingSettles(c, probe, 0, 0, m, n); }
  }

  /** Probe `h` is the first good one, and patience lasted until then. */
  ghost predicate HealthyAt(c: Config, probe: nat -> bool, h: nat) {
    probe(h) && forall j: nat :: j < h ==> !probe(j) && j * c.healthRetry < c.healthMax
  }

  /** No probe up to `h` was good, and patience ends with it. */
  ghost predicate SpentAt(c: Config, probe: nat -> bool, h: nat) {
    !probe(h) && h * c.healthRetry >= c.healthMax && forall j: nat :: j < h ==> !probe(j) && j * c.healthRetry < c.healthMax
  }

  lemma {:induction false} WaitingFinds(c: Config, probe: nat -> bool, k: nat, n: nat) returns (h: nat)
    requires forall j: nat :: j < k ==> !probe(j) && j * c.healthRetry < c.healthMax
    requires Waiting(c, probe, k, k * c.healthRetry, n) != Undecided
    ensures Waiting(c, probe, k, k * c.healthRetry, n) == Healthy ==> HealthyAt(c, probe, h)
    ensures Waiting(c, probe, k, k * c.healthRetry, n) == GaveUp ==> SpentAt(c, probe, h)
    decreases n
  {
    h := k;
    if !probe(k) && k * c.healthRetry < c.healthMax {
      assert k * c.healthRetry + c.healthRetry == (k + 1) * c.healthRetry;
      h := WaitingFinds(c, probe, k + 1, n - 1);
    }
  }

  lemma {:induction false} WaitingReaches(c: Config, probe: nat -> bool, k: nat, h: nat)
    requires k <= h && (HealthyAt(c, probe, h) || SpentAt(c, probe, h))
    ensures Waiting(c, probe, k, k * c.healthRetry, h - k + 1) == if probe(h) then Healthy else GaveUp
    decreases h - k
  {
    if k < h {
      assert !probe(k) && k * c.healthRetry < c.healthMax;
      assert k * c.healthRetry + c.healthRetry == (k + 1) * c.healthRetry;
      WaitingReaches(c, probe, k + 1, h);
    }
  }

  /** The wait succeeds exactly at a first good probe within patience, and fails exactly when patience runs out first. */
  lemma WaitsAre(c: Config, probe: nat -> bool)
    ensures Waits(c, probe, Healthy) <==> exists h: nat :: HealthyAt(c, probe, h)
    ensures Waits(c, probe, GaveUp) <==> exists h: nat :: SpentAt(c, probe, h)
    ensures !(Waits(c, probe, Healthy) && Waits(c, probe, GaveUp))
  {
    forall n: nat | Waiting(c, probe, 0, 0, n) != Undecided
      ensures exists h: nat :: if Waiting(c, probe, 0, 0, n) == Healthy then HealthyAt(c, probe, h) else SpentAt(c, probe, h)
    {
      var h := WaitingFinds(c, probe, 0, n);
    }
    forall h: nat | HealthyAt(c, probe, h) ensures Waits(c, probe, Healthy) { WaitingReaches(c, probe, 0, h); }
    forall h: nat | SpentAt(c, probe, h) ensures Waits(c, probe, GaveUp) { WaitingReaches(c, probe, 0, h); }
    if Waits(c, probe, Healthy) && Waits(c, probe, GaveUp) { WaitsOnce(c, probe, Healthy, GaveUp); }
  }

  /** Probe until healthy or out of patience. */
  method WaitHealthy(c: Config, probe: nat -> bool) returns (ok: bool)
    requires WaitEnds(c, probe)
    ensures Waits(c, probe, if ok then Healthy else GaveUp)
    ensures ok <==> exists h: nat :: HealthyAt(c, probe, h)
    ensures !ok <==> exists h: nat :: SpentAt(c, probe, h)
  {
    var waited, k := 0, 0;
    ghost var total := WaitDecides(c, probe);
    WaitsAre(c, probe);
    hide HealthyAt, SpentAt;
    while true
      invariant 0 <= k <= total
      invariant Waiting(c, probe, 0, 0, total) == Waiting(c, probe, k, waited, total - k) != Undecided
      decreases total - k
    {
      if probe(k) { return true; }
      if waited >= c.healthMax { return false; }
      waited, k := waited + c.healthRetry, k + 1;
    }
  }

  // --- Choosing the next run --------------------------------------------------------------------

  /** Per arm, the profile positions of its unfinished runs, in profile order. */
  type Pending = seq<seq<nat>>

  ghost predicate Ordered(pending: Pending) {
    forall a, i, j :: 0 <= a < |pending| && 0 <= i < j < |pending[a]| ==> pending[a][i] < pending[a][j]
  }

  predicate AllDone(pending: Pending) { forall a :: 0 <= a < |pending| ==> pending[a] == [] }

  /** Campaign order: by position then arm when interleaving, by arm then position otherwise. */
  predicate Before(interleave: bool, p: nat, a: nat, q: nat, b: nat) {
    if interleave then p < q || (p == q && a < b) else a < b || (a == b && p < q)
  }

  /** The arm to run next: no other arm's first run comes before its own. */
  method NextPending(pending: Pending, interleave: bool) returns (arm: Option<nat>)
    ensures arm.None? <==> AllDone(pending)
    ensures arm.Some? ==> arm.value < |pending| && pending[arm.value] != []
    ensures arm.Some? ==> forall b :: 0 <= b < |pending| && pending[b] != [] && b != arm.value ==>
              Before(interleave, pending[arm.value][0], arm.value, pending[b][0], b)
    ensures arm.Some? && interleave ==> forall b :: 0 <= b < |pending| && pending[b] != [] ==>
              pending[arm.value][0] < pending[b][0] || (pending[arm.value][0] == pending[b][0] && arm.value <= b)
    ensures arm.Some? && !interleave ==> forall b :: 0 <= b < arm.value ==> pending[b] == []
  {
    arm := None;
    for b := 0 to |pending|
      invariant arm.None? <==> AllDone(pending[..b])
      invariant arm.Some? ==> interleave && arm.value < b && pending[arm.value] != []
      invariant arm.Some? ==> forall d :: 0 <= d < b && pending[d] != [] && d != arm.value ==>
                  Before(interleave, pending[arm.value][0], arm.value, pending[d][0], d)
    {
      if pending[b] != [] {
        if !interleave { return Some(b); }
        if arm.None? || pending[b][0] < pending[arm.value][0] { arm := Some(b); }
      }
    }
  }

  // --- What a log says --------------------------------------------------------------------------

  /** Failed children in a row at the end of the log. */
  function Trailing(log: seq<Entry>): nat {
    if log == [] || !Failed(log[|log| - 1]) then 0 else Trailing(log[..|log| - 1]) + 1
  }

  /** Degraded live runs in a row, ignoring failures and unpaid arms in between. */
  function Streak(c: Config, log: seq<Entry>): nat {
    if log == [] then 0
    else
      var before, e := Streak(c, log[..|log| - 1]), log[|log| - 1];
      if Failed(e) || !e.live then before
      else if e.child.degraded >= c.degradedThreshold then before + 1 else 0
  }

  predicate FailsOut(c: Config, log: seq<Entry>) {
    log != [] && Failed(log[|log| - 1]) && Trailing(log) >= c.maxFailures
  }

  predicate DegradesOut(c: Config, log: seq<Entry>) {
    log != [] && !Failed(log[|log| - 1]) && log[|log| - 1].live && Streak(c, log) >= c.degradedAbort
  }

  /** The recorded runs of the log, in order. */
  function Recorded(log: seq<Entry>): seq<Entry> {
    if log == [] then []
    else Recorded(log[..|log| - 1]) + (if log[|log| - 1].child.recorded then [log[|log| - 1]] else [])
  }

  function PositionsOf(log: seq<Entry>, arm: nat): seq<nat> {
    if log == [] then []
    else
      var e := log[|log| - 1];
      PositionsOf(log[..|log| - 1], arm) + (if e.child.recorded && e.arm == arm then [e.position] else [])
  }

  ghost predicate Merged(interleave: bool, rec: seq<Entry>) {
    forall i, j :: 0 <= i < j < |rec| ==>
      Before(interleave, rec[i].position, rec[i].arm, rec[j].position, rec[j].arm)
  }

  /** Nothing still pending comes before what was already recorded. */
  ghost predicate Ahead(interleave: bool, rec: seq<Entry>, pending: Pending) {
    forall k, a, i :: 0 <= k < |rec| && 0 <= a < |pending| && 0 <= i < |pending[a]| ==>
      Before(interleave, rec[k].position, rec[k].arm, pending[a][i], a)
  }

  ghost predicate Conserved(start: Pending, log: seq<Entry>, left: Pending) {
    |left| == |start| && forall a :: 0 <= a < |start| ==> start[a] == PositionsOf(log, a) + left[a]
  }

  /** Work left, summed over the arms: the outer termination measure. */
  function Work(pending: Pending): nat {
    if pending == [] then 0 else |pending[0]| + Work(pending[1..])
  }

  lemma {:induction false} WorkDrops(pending: Pending, a: nat)
    requires a < |pending| && pending[a] != []
    ensures Work(pending[a := pending[a][1..]]) == Work(pending) - 1
  {
    if a > 0 {
      WorkDrops(pending[1..], a - 1);
      assert pending[a := pending[a][1..]][1..] == pending[1..][a - 1 := pending[a][1..]];
    } else {
      assert pending[0 := pending[0][1..]][1..] == pending[1..];
    }
  }

  /** The chosen run extends the merge, and stays behind everything left. */
  lemma RecordExtends(interleave: bool, rec: seq<Entry>, pending: Pending, a: nat, e: Entry)
    requires Ordered(pending) && Merged(interleave, rec) && Ahead(interleave, rec, pending)
    requires a < |pending| && pending[a] != [] && e.arm == a && e.position == pending[a][0]
    requires forall b :: 0 <= b < |pending| && pending[b] != [] && b != a ==>
               Before(interleave, pending[a][0], a, pending[b][0], b)
    ensures Ordered(pending[a := pending[a][1..]])
    ensures Merged(interleave, rec + [e])
    ensures Ahead(interleave, rec + [e], pending[a := pending[a][1..]])
  {
    var left := pending[a := pending[a][1..]];
    forall b, i | 0 <= b < |left| && 0 <= i < |left[b]| ensures Before(interleave, e.position, a, left[b][i], b) {
      if b == a {
        assert left[b][i] == pending[a][i + 1];
      } else {
        assert i > 0 ==> pending[b][0] < pending[b][i];
      }
    }
    forall k, b, i | 0 <= k < |rec| && 0 <= b < |left| && 0 <= i < |left[b]|
      ensures Before(interleave, rec[k].position, rec[k].arm, left[b][i], b)
    {
      assert left[b][i] == if b == a then pending[b][i + 1] else pending[b][i];
    }
    forall b, i, j | 0 <= b < |left| && 0 <= i < j < |left[b]| ensures left[b][i] < left[b][j] {
      if b == a { assert pending[a][i + 1] < pending[a][j + 1]; }
    }
  }

  // --- The supervisor ---------------------------------------------------------------------------

  predicate OverCeiling(c: Config, arm: nat, tokens: int)
    requires arm < |c.live|
  {
    c.maxTokens.Some? && c.live[arm] && tokens >= c.maxTokens.value
  }

  /** No child adds more than `perRun` counted tokens. */
  ghost predicate PricedAt(w: World, c: Config, perRun: int) {
    perRun >= 0 && forall n :: w.child(n).tokens <= perRun
  }

  /** Counted tokens after a log: only arms that call a paid model count. */
  function TokensAt(used: int, log: seq<Entry>): int {
    if log == [] then used
    else TokensAt(used, log[..|log| - 1]) + if log[|log| - 1].live then log[|log| - 1].child.tokens else 0
  }

  /** Runs left after a log. */
  function PendingAt(start: Pending, log: seq<Entry>): Pending {
    if log == [] then start
    else
      var p, e := PendingAt(start, log[..|log| - 1]), log[|log| - 1];
      if e.arm < |p| && p[e.arm] != [] then LeftAfter(p, e.arm, e.child) else p
  }

  /** No child so far was the reason to abort. */
  ghost predicate Quiet(c: Config, log: seq<Entry>) {
    forall k :: 0 <= k <= |log| ==> !FailsOut(c, log[..k]) && !DegradesOut(c, log[..k])
  }

  /** Runs are neither lost nor repeated, and are recorded in campaign order ahead of everything left. */
  ghost predicate InOrder(c: Config, start: Pending, log: seq<Entry>, pending: Pending) {
    && Ordered(pending) && Conserved(start, log, pending)
    && Merged(c.interleave, Recorded(log)) && Ahead(c.interleave, Recorded(log), pending)
  }

  ghost predicate WithinCeiling(c: Config, used: int, perRun: int, tokens: int) {
    c.maxTokens.Some? ==> tokens <= used || tokens < c.maxTokens.value + perRun
  }

  function LeftAfter(pending: Pending, arm: nat, child: Child): Pending
    requires arm < |pending| && pending[arm] != []
  {
    if child.recorded then pending[arm := pending[arm][1..]] else pending
  }

  lemma RecordsGrew(log: seq<Entry>, e: Entry)
    ensures Recorded(log + [e]) == Recorded(log) + (if e.child.recorded then [e] else [])
    ensures forall a :: PositionsOf(log + [e], a) ==
              PositionsOf(log, a) + (if e.child.recorded && e.arm == a then [e.position] else [])
  {
    assert (log + [e])[..|log|] == log;
  }

  lemma LogGrew(c: Config, log: seq<Entry>, e: Entry)
    ensures (log + [e])[..|log|] == log
    ensures Trailing(log + [e]) == if Failed(e) then Trailing(log) + 1 else 0
    ensures Quiet(c, log) ==> QuietBefore(c, log + [e])
  {
    assert (log + [e])[..|log|] == log;
    forall k | 0 <= k <= |log| ensures (log + [e])[..k] == log[..k] {}
  }

  lemma StaysQuiet(c: Config, log: seq<Entry>)
    requires QuietBefore(c, log) && !FailsOut(c, log) && !DegradesOut(c, log)
    ensures Quiet(c, log)
  {
    assert log[..|log|] == log;
  }

  lemma StaysInOrder(c: Config, start: Pending, log: seq<Entry>, pending: Pending, a: nat, e: Entry)
    requires InOrder(c, start, log, pending)
    requires a < |pending| && pending[a] != [] && e.arm == a && e.position == pending[a][0]
    requires forall b :: 0 <= b < |pending| && pending[b] != [] && b != a ==>
               Before(c.interleave, pending[a][0], a, pending[b][0], b)
    ensures InOrder(c, start, log + [e], LeftAfter(pending, a, e.child))
  {
    RecordsGrew(log, e);
    hide Recorded, PositionsOf;
    var left := LeftAfter(pending, a, e.child);
    StaysConserved(start, log, pending, a, e);
    if e.child.recorded {
      RecordExtends(c.interleave, Recorded(log), pending, a, e);
    } else {
      assert Recorded(log) + [] == Recorded(log);
    }
    hide Conserved, Merged, Ahead, Ordered;
  }

  lemma StaysConserved(start: Pending, log: seq<Entry>, pending: Pending, a: nat, e: Entry)
    requires Conserved(start, log, pending)
    requires a < |pending| && pending[a] != [] && e.arm == a && e.position == pending[a][0]
    ensures Conserved(start, log + [e], LeftAfter(pending, a, e.child))
  {
    RecordsGrew(log, e);
    hide PositionsOf;
    var left := LeftAfter(pending, a, e.child);
    forall b | 0 <= b < |start| ensures start[b] == PositionsOf(log + [e], b) + left[b] {
      if b == a && e.child.recorded {
        assert pending[a] == [pending[a][0]] + left[a];
      } else {
        assert PositionsOf(log, b) + [] == PositionsOf(log, b);
      }
    }
  }

  /** The chosen arm's next run comes before every other arm's. */
  ghost predicate Chosen(c: Config, pending: Pending, a: nat) {
    && a < |pending| && pending[a] != []
    && forall b :: 0 <= b < |pending| && pending[b] != [] && b != a ==>
         Before(c.interleave, pending[a][0], a, pending[b][0], b)
  }

  function Probe(w: World, n: nat): nat -> bool { (k: nat) => w.healthy(n, k) }

  /** All guards let the next child, the one after `n` others, start for `arm`. */
  ghost predicate MayStart(c: Config, w: World, n: nat, arm: nat, tokens: int) {
    && arm < |c.live| && !w.stopFile(n) && !w.codeChanged(n) && !OverCeiling(c, arm, tokens)
    && Waits(c, Probe(w, n), Healthy)
  }

  /** The `k`-th child was started for the arm in turn, past every guard. */
  ghost predicate Started(c: Config, w: World, start: Pending, used: int, log: seq<Entry>, k: nat)
    requires k < |log|
  {
    var left, arm := PendingAt(start, log[..k]), log[k].arm;
    && Chosen(c, left, arm) && MayStart(c, w, k, arm, TokensAt(used, log[..k]))
    && log[k] == Entry(arm, left[arm][0], c.live[arm], w.child(k))
  }

  /** The first guard that keeps the `n`-th child of `arm` from starting. */
  ghost predicate Blocked(c: Config, w: World, n: nat, arm: nat, tokens: int, state: Terminal) {
    && arm < |c.live|
    && match state
       case Stopped => w.stopFile(n)
       case CodeChanged => !w.stopFile(n) && w.codeChanged(n)
       case TokenCeiling => !w.stopFile(n) && !w.codeChanged(n) && OverCeiling(c, arm, tokens)
       case UnhealthyAbort =>
         !w.stopFile(n) && !w.codeChanged(n) && !OverCeiling(c, arm, tokens) && Waits(c, Probe(w, n), GaveUp)
       case _ => false
  }

  /** Why the supervisor stopped before its next child: no work, or a guard on the arm in turn. */
  ghost predicate Exits(c: Config, w: World, n: nat, left: Pending, tokens: int, state: Terminal) {
    if state.Complete? then AllDone(left)
    else exists a: nat :: Chosen(c, left, a) && Blocked(c, w, n, a, tokens, state)
  }

  ghost predicate AllStarted(c: Config, w: World, start: Pending, used: int, log: seq<Entry>) {
    forall k :: 0 <= k < |log| ==> Started(c, w, start, used, log, k)
  }

  /** No child before the last was a reason to abort. */
  ghost predicate QuietBefore(c: Config, log: seq<Entry>) {
    forall k :: 0 <= k < |log| ==> !FailsOut(c, log[..k]) && !DegradesOut(c, log[..k])
  }

  /** Everything a call does: every child it started, and why it ended. */
  ghost predicate Outcome(c: Config, w: World, start: Pending, used: int, state: Terminal, log: seq<Entry>) {
    && AllStarted(c, w, start, used, log) && QuietBefore(c, log)
    && (state.FailureAbort? <==> FailsOut(c, log)) && (state.DegradedAbort? <==> DegradesOut(c, log))
    && (state.FailureAbort? || state.DegradedAbort?
        || Exits(c, w, |log|, PendingAt(start, log), TokensAt(used, log), state))
  }

  // --- The outcome is determined ----------------------------------------------------------------

  lemma ChosenIsUnique(c: Config, left: Pending, a: nat, b: nat)
    requires Chosen(c, left, a) && Chosen(c, left, b)
    ensures a == b
  {}

  lemma StartedExcludesExit(c: Config, w: World, n: nat, left: Pending, arm: nat, tokens: int, state: Terminal)
    requires Chosen(c, left, arm) && MayStart(c, w, n, arm, tokens)
    ensures !Exits(c, w, n, left, tokens, state)
  {
    forall a: nat | Chosen(c, left, a) ensures !Blocked(c, w, n, a, tokens, state) {
      ChosenIsUnique(c, left, a, arm);
      if Waits(c, Probe(w, n), GaveUp) { WaitsOnce(c, Probe(w, n), Healthy, GaveUp); }
    }
  }

  lemma ExitIsUnique(c: Config, w: World, n: nat, left: Pending, tokens: int, x: Terminal, y: Terminal)
    requires Exits(c, w, n, left, tokens, x) && Exits(c, w, n, left, tokens, y)
    ensures x == y
  {
    if !x.Complete? && !y.Complete? {
      var a: nat :| Chosen(c, left, a) && Blocked(c, w, n, a, tokens, x);
      var b: nat :| Chosen(c, left, b) && Blocked(c, w, n, b, tokens, y);
      ChosenIsUnique(c, left, a, b);
    }
  }

  lemma {:induction false} LogsAgree(c: Config, w: World, start: Pending, used: int,
                                     x: Terminal, a: seq<Entry>, y: Terminal, b: seq<Entry>, k: nat)
    requires Outcome(c, w, start, used, x, a) && Outcome(c, w, start, used, y, b) && k <= |a| && k <= |b|
    ensures a[..k] == b[..k]
  {
    if k > 0 {
      LogsAgree(c, w, start, used, x, a, y, b, k - 1);
      assert Started(c, w, start, used, a, k - 1) && Started(c, w, start, used, b, k - 1);
      ChosenIsUnique(c, PendingAt(start, a[..k - 1]), a[k - 1].arm, b[k - 1].arm);
      assert a[..k] == a[..k - 1] + [a[k - 1]] && b[..k] == b[..k - 1] + [b[k - 1]];
    }
  }

  lemma NoFurther(c: Config, w: World, start: Pending, used: int, x: Terminal, a: seq<Entry>, y: Terminal, b: seq<Entry>)
    requires Outcome(c, w, start, used, x, a) && Outcome(c, w, start, used, y, b)
    ensures |b| <= |a|
  {
    if |a| < |b| {
      LogsAgree(c, w, start, used, x, a, y, b, |a|);
      assert a[..|a|] == a && b[..|a|] == a;
      assert Started(c, w, start, used, b, |a|);
      StartedExcludesExit(c, w, |a|, PendingAt(start, a), b[|a|].arm, TokensAt(used, a), x);
    }
  }

  /** The guards, the children and the limits leave the supervisor no choice. */
  lemma OutcomeIsUnique(c: Config, w: World, start: Pending, used: int, x: Terminal, a: seq<Entry>, y: Terminal, b: seq<Entry>)
    requires Outcome(c, w, start, used, x, a) && Outcome(c, w, start, used, y, b)
    ensures x == y && a == b
  {
    NoFurther(c, w, start, used, x, a, y, b);
    NoFurther(c, w, start, used, y, b, x, a);
    LogsAgree(c, w, start, used, x, a, y, b, |a|);
    assert a[..|a|] == a && b[..|a|] == b;
    if !x.FailureAbort? && !x.DegradedAbort? {
      ExitIsUnique(c, w, |a|, PendingAt(start, a), TokensAt(used, a), x, y);
    }
  }

  /** Complete means no work is left and no limit was hit. */
  lemma CompleteIff(c: Config, w: World, start: Pending, used: int, state: Terminal, log: seq<Entry>)
    requires Outcome(c, w, start, used, state, log)
    ensures state.Complete? <==> AllDone(PendingAt(start, log)) && !FailsOut(c, log) && !DegradesOut(c, log)
  {}

  /** A child that records the campaign's last run but exits with an error, at a failure limit of one:
      nothing is left to do, and the call still ends as a failure abort. */
  lemma LastRunCanAbort(c: Config, w: World, used: int, position: nat)
    requires |c.live| == 1 && c.maxFailures <= 1 && MayStart(c, w, 0, 0, used)
    requires w.child(0).code != 0 && w.child(0).recorded
    ensures var log := [Entry(0, position, c.live[0], w.child(0))];
            Outcome(c, w, [[position]], used, FailureAbort, log) && AllDone(PendingAt([[position]], log))
    ensures forall state, log :: Outcome(c, w, [[position]], used, state, log) ==> state.FailureAbort?
  {
    var start: Pending := [[position]];
    var e := Entry(0, position, c.live[0], w.child(0));
    assert [e][..0] == [];
    assert Chosen(c, start, 0) && Started(c, w, start, used, [e], 0);
    assert PendingAt(start, []) == start && PendingAt(start, [e]) == LeftAfter(start, 0, e.child);
    assert start[0][1..] == [];
    assert Outcome(c, w, start, used, FailureAbort, [e]);
    forall state, log | Outcome(c, w, start, used, state, log) ensures state.FailureAbort? {
      OutcomeIsUnique(c, w, start, used, state, log, FailureAbort, [e]);
    }
  }

  // --- What an outcome means --------------------------------------------------------------------

  lemma {:induction false} TrailingIs(log: seq<Entry>, n: nat)
    ensures Trailing(log) >= n
            <==> n <= |log| && forall i :: |log| - n <= i < |log| ==> log[i].child.code != 0 || !log[i].child.recorded
  {
    if log != [] && n > 0 {
      var k := |log| - 1;
      TrailingIs(log[..k], n - 1);
      assert forall i :: 0 <= i < k ==> log[..k][i] == log[i];
    }
  }

  /** The finished runs of paid arms, in order. */
  function Paid(log: seq<Entry>): seq<Entry> {
    if log == [] then []
    else
      var e := log[|log| - 1];
      Paid(log[..|log| - 1]) + if e.child.code == 0 && e.child.recorded && e.live then [e] else []
  }

  /** The last `n` of these runs were all degraded. */
  ghost predicate LastDegraded(c: Config, runs: seq<Entry>, n: nat) {
    n <= |runs| && forall i :: |runs| - n <= i < |runs| ==> runs[i].child.degraded >= c.degradedThreshold
  }

  lemma LastDegradedAppend(c: Config, runs: seq<Entry>, e: Entry, n: nat)
    requires n > 0
    ensures LastDegraded(c, runs + [e], n) <==> e.child.degraded >= c.degradedThreshold && LastDegraded(c, runs, n - 1)
  {
    var more := runs + [e];
    assert more[|runs|] == e;
    if LastDegraded(c, more, n) {
      forall i | |runs| - (n - 1) <= i < |runs| ensures runs[i].child.degraded >= c.degradedThreshold { assert more[i] == runs[i]; }
    }
  }

  lemma {:induction false} StreakIs(c: Config, log: seq<Entry>, n: nat)
    ensures Streak(c, log) >= n <==> LastDegraded(c, Paid(log), n)
  {
    if n > 0 && log != [] {
      hide LastDegraded;
      var front, e := log[..|log| - 1], log[|log| - 1];
      StreakIs(c, front, n);
      StreakIs(c, front, n - 1);
      LastDegradedAppend(c, Paid(front), e, n);
      assert Paid(front) + [] == Paid(front);
    }
  }

  /** The aborts, told from exit codes, records and degraded calls. */
  lemma AbortsMean(c: Config, log: seq<Entry>)
    requires log != []
    ensures var n, e := (if c.maxFailures > 0 then c.maxFailures else 0), log[|log| - 1];
            FailsOut(c, log)
            <==> (e.child.code != 0 || !e.child.recorded) && n <= |log|
                 && forall i :: |log| - n <= i < |log| ==> log[i].child.code != 0 || !log[i].child.recorded
    ensures var n, e := (if c.degradedAbort > 0 then c.degradedAbort else 0), log[|log| - 1];
            DegradesOut(c, log)
            <==> e.child.code == 0 && e.child.recorded && e.live && n <= |Paid(log)|
                 && forall i :: |Paid(log)| - n <= i < |Paid(log)| ==> Paid(log)[i].child.degraded >= c.degradedThreshold
  {
    TrailingIs(log, if c.maxFailures > 0 then c.maxFailures else 0);
    StreakIs(c, log, if c.degradedAbort > 0 then c.degradedAbort else 0);
  }

  /** The `k`-th child ran with no stop file and unchanged code, below the ceiling if it is paid, on a stack that had
      turned healthy while patience lasted. */
  ghost predicate PastGuards(c: Config, w: World, used: int, log: seq<Entry>, k: nat)
    requires k < |log|
  {
    && !w.stopFile(k) && !w.codeChanged(k) && log[k].child == w.child(k)
    && (c.maxTokens.Some? && log[k].live ==> TokensAt(used, log[..k]) < c.maxTokens.value)
    && exists h: nat :: w.healthy(k, h) && forall j: nat :: j < h ==> !w.healthy(k, j) && j * c.healthRetry < c.healthMax
  }

  lemma StartedMeans(c: Config, w: World, start: Pending, used: int, log: seq<Entry>, k: nat)
    requires k < |log| && Started(c, w, start, used, log, k)
    ensures PastGuards(c, w, used, log, k)
  {
    WaitsAre(c, Probe(w, k));
    var h: nat :| HealthyAt(c, Probe(w, k), h);
    assert Probe(w, k)(h);
    forall j: nat | j < h ensures !w.healthy(k, j) && j * c.healthRetry < c.healthMax { assert !Probe(w, k)(j); }
  }

  /** Recorded runs come position by position when interleaving, arm by arm otherwise. */
  lemma MergedMeans(interleave: bool, rec: seq<Entry>, i: nat, j: nat)
    requires Merged(interleave, rec) && i < j < |rec|
    ensures interleave ==> rec[i].position < rec[j].position || (rec[i].position == rec[j].position && rec[i].arm < rec[j].arm)
    ensures !interleave ==> rec[i].arm < rec[j].arm || (rec[i].arm == rec[j].arm && rec[i].position < rec[j].position)
  {}

  /** Every child ran on a stack that had turned healthy, past the stop file, changed code and the ceiling, and
      each final state has its reason outside: in particular a healthy stack is never given up on. */
  lemma OutcomeMeans(c: Config, w: World, start: Pending, used: int, state: Terminal, log: seq<Entry>)
    requires Outcome(c, w, start, used, state, log)
    ensures forall k :: 0 <= k < |log| ==> PastGuards(c, w, used, log, k)
    ensures state.Stopped? ==> w.stopFile(|log|)
    ensures state.CodeChanged? ==> w.codeChanged(|log|) && !w.stopFile(|log|)
    ensures state.TokenCeiling? ==> c.maxTokens.Some? && TokensAt(used, log) >= c.maxTokens.value
    ensures state.TokenCeiling? ==> exists a :: 0 <= a < |c.live| && c.live[a] && a < |PendingAt(start, log)| && PendingAt(start, log)[a] != []
    ensures state.UnhealthyAbort? ==> !w.healthy(|log|, 0)
    ensures state.UnhealthyAbort? ==> exists h: nat :: h * c.healthRetry >= c.healthMax && forall j: nat :: j <= h ==> !w.healthy(|log|, j)
    ensures state.Complete? ==> forall a :: 0 <= a < |PendingAt(start, log)| ==> PendingAt(start, log)[a] == []
  {
    forall k | 0 <= k < |log| ensures PastGuards(c, w, used, log, k) { StartedMeans(c, w, start, used, log, k); }
    hide PastGuards, Waits;
    if state.UnhealthyAbort? { GivenUpMeans(c, w, |log|); }
  }

  lemma GivenUpMeans(c: Config, w: World, n: nat)
    requires Waits(c, Probe(w, n), GaveUp)
    ensures !w.healthy(n, 0)
    ensures exists h: nat :: h * c.healthRetry >= c.healthMax && forall j: nat :: j <= h ==> !w.healthy(n, j)
  {
    WaitsAre(c, Probe(w, n));
    var h: nat :| SpentAt(c, Probe(w, n), h);
    forall j: nat | j <= h ensures !w.healthy(n, j) { assert !Probe(w, n)(j); }
    assert !Probe(w, n)(0);
  }

  // --- The loop ---------------------------------------------------------------------------------

  /** What the loop has done so far, and that nothing in it was a reason to stop. */
  ghost predicate Running(c: Config, w: World, start: Pending, used: int, log: seq<Entry>, pending: Pending, tokens: int) {
    && pending == PendingAt(start, log) && tokens == TokensAt(used, log)
    && AllStarted(c, w, start, used, log)
    && InOrder(c, start, log, pending) && Quiet(c, log)
  }

  /** Run one child for the chosen arm and decide from its outcome whether to go on. */
  method RunChild(c: Config, w: World, ghost start: Pending, log: seq<Entry>, pending: Pending, arm: nat,
                  failures: nat, streak: nat)
    returns (e: Entry, abort: Option<Terminal>, left: Pending, failures': nat, streak': nat)
    requires |c.live| == |pending| && Chosen(c, pending, arm)
    requires InOrder(c, start, log, pending) && Quiet(c, log)
    requires failures == Trailing(log) && streak == Streak(c, log)
    ensures e == Entry(arm, pending[arm][0], c.live[arm], w.child(|log|))
    ensures left == LeftAfter(pending, arm, e.child) && InOrder(c, start, log + [e], left)
    ensures failures' == Trailing(log + [e]) && streak' == Streak(c, log + [e])
    ensures abort == Some(FailureAbort) <==> FailsOut(c, log + [e])
    ensures abort == Some(DegradedAbort) <==> DegradesOut(c, log + [e])
    ensures abort.None? || abort == Some(FailureAbort) || abort == Some(DegradedAbort)
    ensures abort.None? && Failed(e) ==> failures' == failures + 1 < c.maxFailures
    ensures !Failed(e) ==> e.child.recorded
  {
    var child := w.child(|log|);
    e := Entry(arm, pending[arm][0], c.live[arm], child);
    LogGrew(c, log, e);
    StaysInOrder(c, start, log, pending, arm, e);
    hide InOrder, Chosen, Quiet;
    left := LeftAfter(pending, arm, child);
    failures', streak', abort := failures, streak, None;
    if child.code != 0 || !child.recorded {
      failures' := failures + 1;
      if failures' >= c.maxFailures { abort := Some(FailureAbort); }
    } else {
      failures' := 0;
      if c.live[arm] {
        streak' := if child.degraded >= c.degradedThreshold then streak + 1 else 0;
        if streak' >= c.degradedAbort { abort := Some(DegradedAbort); }
      }
    }
  }

  /** A record shrinks the work; otherwise the failures left to tolerate shrink. */
  lemma ChildMakesProgress(pending: Pending, arm: nat, child: Child)
    requires arm < |pending| && pending[arm] != []
    ensures Work(LeftAfter(pending, arm, child)) == Work(pending) - (if child.recorded then 1 else 0)
  {
    WorkDrops(pending, arm);
  }

  lemma QuietMeans(c: Config, log: seq<Entry>)
    requires Quiet(c, log)
    ensures !FailsOut(c, log) && !DegradesOut(c, log)
  {
    assert log[..|log|] == log;
  }

  /** With a positive limit, the abort comes at exactly that many consecutive failures. */
  lemma AbortsAtTheConfiguredCount(c: Config, log: seq<Entry>)
    requires c.maxFailures >= 1 && FailsOut(c, log) && !FailsOut(c, log[..|log| - 1])
    ensures Trailing(log) == c.maxFailures
  {
    assert Trailing(log) == Trailing(log[..|log| - 1]) + 1;
  }

  /** Tokens stay at what was used already, or below the ceiling plus one child's. */
  lemma ChildWithinCeiling(c: Config, w: World, used: int, perRun: int, log: seq<Entry>, e: Entry)
    requires PricedAt(w, c, perRun) && WithinCeiling(c, used, perRun, TokensAt(used, log))
    requires MayStart(c, w, |log|, e.arm, TokensAt(used, log)) && e.child == w.child(|log|) && e.live == c.live[e.arm]
    ensures WithinCeiling(c, used, perRun, TokensAt(used, log + [e]))
  {
    assert (log + [e])[..|log|] == log;
  }

  lemma ChildLogged(c: Config, w: World, start: Pending, used: int, log: seq<Entry>, e: Entry)
    requires AllStarted(c, w, start, used, log)
    requires Chosen(c, PendingAt(start, log), e.arm) && MayStart(c, w, |log|, e.arm, TokensAt(used, log))
    requires e == Entry(e.arm, PendingAt(start, log)[e.arm][0], c.live[e.arm], w.child(|log|))
    ensures PendingAt(start, log + [e]) == LeftAfter(PendingAt(start, log), e.arm, e.child)
    ensures TokensAt(used, log + [e]) == TokensAt(used, log) + if e.live then e.child.tokens else 0
    ensures AllStarted(c, w, start, used, log + [e])
  {
    assert (log + [e])[..|log|] == log;
    forall k | 0 <= k < |log| ensures Started(c, w, start, used, log + [e], k) {
      assert (log + [e])[..k] == log[..k] && Started(c, w, start, used, log, k);
    }
  }

  /** After a child: either a limit was hit, or the loop goes on as before. */
  lemma AfterChild(c: Config, w: World, start: Pending, used: int, log: seq<Entry>, e: Entry)
    requires var pending, tokens := PendingAt(start, log), TokensAt(used, log);
             && Running(c, w, start, used, log, pending, tokens)
             && Chosen(c, pending, e.arm) && MayStart(c, w, |log|, e.arm, tokens)
             && e == Entry(e.arm, pending[e.arm][0], c.live[e.arm], w.child(|log|))
             && InOrder(c, start, log + [e], LeftAfter(pending, e.arm, e.child))
    ensures PendingAt(start, log + [e]) == LeftAfter(PendingAt(start, log), e.arm, e.child)
    ensures TokensAt(used, log + [e]) == TokensAt(used, log) + if e.live then e.child.tokens else 0
    ensures if FailsOut(c, log + [e]) then Outcome(c, w, start, used, FailureAbort, log + [e])
            else if DegradesOut(c, log + [e]) then Outcome(c, w, start, used, DegradedAbort, log + [e])
            else Running(c, w, start, used, log + [e], PendingAt(start, log + [e]), TokensAt(used, log + [e]))
  {
    assert AllStarted(c, w, start, used, log) && Quiet(c, log);
    ChildLogged(c, w, start, used, log, e);
    QuietAfter(c, log, e);
    FailedOrNot(c, log + [e]);
    hide *;
    if FailsOut(c, log + [e]) {
      Stops(c, w, start, used, FailureAbort, log + [e]);
    } else if DegradesOut(c, log + [e]) {
      Stops(c, w, start, used, DegradedAbort, log + [e]);
    } else {
      GoesOn(c, w, start, used, log + [e]);
    }
  }

  lemma QuietAfter(c: Config, log: seq<Entry>, e: Entry)
    requires Quiet(c, log)
    ensures QuietBefore(c, log + [e])
  {
    LogGrew(c, log, e);
    hide FailsOut, DegradesOut;
  }

  lemma Stops(c: Config, w: World, start: Pending, used: int, state: Terminal, log: seq<Entry>)
    requires AllStarted(c, w, start, used, log) && QuietBefore(c, log)
    requires state.FailureAbort? || state.DegradedAbort?
    requires (state.FailureAbort? <==> FailsOut(c, log)) && (state.DegradedAbort? <==> DegradesOut(c, log))
    ensures Outcome(c, w, start, used, state, log)
  {}

  lemma GoesOn(c: Config, w: World, start: Pending, used: int, log: seq<Entry>)
    requires AllStarted(c, w, start, used, log) && QuietBefore(c, log) && !FailsOut(c, log) && !DegradesOut(c, log)
    requires InOrder(c, start, log, PendingAt(start, log))
    ensures Running(c, w, start, used, log, PendingAt(start, log), TokensAt(used, log))
  {
    hide InOrder, FailsOut, DegradesOut;
    StaysQuiet(c, log);
  }

  lemma FailedOrNot(c: Config, log: seq<Entry>)
    ensures !(FailsOut(c, log) && DegradesOut(c, log))
  {}

  lemma GuardedExit(c: Config, w: World, start: Pending, used: int, log: seq<Entry>, state: Terminal)
    requires Running(c, w, start, used, log, PendingAt(start, log), TokensAt(used, log))
    requires Exits(c, w, |log|, PendingAt(start, log), TokensAt(used, log), state)
    ensures Outcome(c, w, start, used, state, log)
  {
    hide Started, InOrder;
    QuietMeans(c, log);
  }

  /** The guards before a child: the arm to run it for, or why not. */
  method Guard(c: Config, w: World, n: nat, pending: Pending, tokens: int) returns (arm: Option<nat>, state: Terminal)
    requires |pending| == |c.live| && WaitEnds(c, Probe(w, n))
    ensures arm.Some? ==> Chosen(c, pending, arm.value) && MayStart(c, w, n, arm.value, tokens)
    ensures arm.None? ==> Exits(c, w, n, pending, tokens, state)
  {
    var next := NextPending(pending, c.interleave);
    if next.None? { return None, Complete; }
    var a := next.value;
    assert Chosen(c, pending, a);
    hide Chosen, Waits;
    if w.stopFile(n) {
      assert Blocked(c, w, n, a, tokens, Stopped);
      return None, Stopped;
    }
    if w.codeChanged(n) {
      assert Blocked(c, w, n, a, tokens, CodeChanged);
      return None, CodeChanged;
    }
    if OverCeiling(c, a, tokens) {
      assert Blocked(c, w, n, a, tokens, TokenCeiling);
      return None, TokenCeiling;
    }
    var ok := WaitHealthy(c, Probe(w, n));
    if !ok {
      assert Blocked(c, w, n, a, tokens, UnhealthyAbort);
      return None, UnhealthyAbort;
    }
    return next, Complete;
  }

  /** Run the chosen child: it ends the call, or the loop goes on with less to do. */
  method RunNext(c: Config, w: World, ghost start: Pending, ghost used: int, ghost perRun: int, log: seq<Entry>,
                 pending: Pending, ghost tokens: int, arm: nat, failures: nat, streak: nat)
    returns (e: Entry, abort: Option<Terminal>, left: Pending, f: nat, d: nat)
    requires |pending| == |c.live| && Running(c, w, start, used, log, pending, tokens)
    requires WithinCeiling(c, used, perRun, tokens) && PricedAt(w, c, perRun)
    requires Chosen(c, pending, arm) && MayStart(c, w, |log|, arm, tokens)
    requires failures == Trailing(log) && streak == Streak(c, log)
    ensures |left| == |c.live| && f == Trailing(log + [e]) && d == Streak(c, log + [e])
    ensures left == PendingAt(start, log + [e])
    ensures TokensAt(used, log + [e]) == if e.live then tokens + e.child.tokens else tokens
    ensures WithinCeiling(c, used, perRun, TokensAt(used, log + [e])) && InOrder(c, start, log + [e], left)
    ensures abort.Some? ==> Outcome(c, w, start, used, abort.value, log + [e])
    ensures abort.None? ==> Running(c, w, start, used, log + [e], left, TokensAt(used, log + [e]))
    ensures abort.None? ==> Work(left) < Work(pending) || (Work(left) == Work(pending) && failures < f < c.maxFailures)
  {
    e, abort, left, f, d := RunChild(c, w, start, log, pending, arm, failures, streak);
    ChildMakesProgress(pending, arm, e.child);
    AfterChild(c, w, start, used, log, e);
    FailedOrNot(c, log + [e]);
    assert e.arm < |c.live| && e.live == c.live[e.arm] && e.child == w.child(|log|);
    hide Running, Outcome, Chosen, PendingAt, Trailing, Streak, FailsOut, DegradesOut, InOrder, QuietBefore, AllStarted;
    ChildWithinCeiling(c, w, used, perRun, log, e);
  }

  /** The supervisor: guard, child, bookkeeping, again and again, until one of the exits applies. */
  method RunCampaign(c: Config, w: World, start: Pending, used: int, ghost perRun: int)
    returns (state: Terminal, log: seq<Entry>, pending: Pending, tokens: int)
    requires |start| == |c.live| && Ordered(start) && PricedAt(w, c, perRun)
    requires forall n :: WaitEnds(c, Probe(w, n))
    ensures Outcome(c, w, start, used, state, log)
    ensures pending == PendingAt(start, log) && tokens == TokensAt(used, log)
    ensures InOrder(c, start, log, pending) && WithinCeiling(c, used, perRun, tokens)
  {
    pending, tokens, log := start, used, [];
    var failures, streak := 0, 0;
    while true
      invariant |pending| == |c.live| && Running(c, w, start, used, log, pending, tokens)
      invariant WithinCeiling(c, used, perRun, tokens)
      invariant failures == Trailing(log) && streak == Streak(c, log)
      decreases Work(pending), c.maxFailures - failures
    {
      hide AllStarted, QuietBefore, Chosen, MayStart, Outcome, Exits, WithinCeiling, PricedAt, WaitEnds, LeftAfter, FailsOut, DegradesOut;
      var next, why := Guard(c, w, |log|, pending, tokens);
      if next.None? {
        GuardedExit(c, w, start, used, log, why);
        return why, log, pending, tokens;
      }
      var e, abort, left, f, d := RunNext(c, w, start, used, perRun, log, pending, tokens, next.value, failures, streak);
      tokens := if e.live then tokens + e.child.tokens else tokens;
      pending, log := left, log + [e];
      if abort.Some? { return abort.value, log, pending, tokens; }
      failures, streak := f, d;
    }
  }
}
