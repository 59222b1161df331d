/** What every reachable state of the governed action protocol satisfies. */
module GovernedSafety {
  import opened Actions
  import opened Tally
  import opened GovernedLoop
  import Bids

  // --- Locks ------------------------------------------------------------------------------------

  ghost predicate HoldsItsLock(c: Config, s: State, p: Pid)
    requires WellFormed(c, s) && p in c.procs
  {
    var ph := s.procs[p].phase;
    Busy(ph) ==> c.lockKey(ph.a.target) in s.locks && s.locks[c.lockKey(ph.a.target)] == p
  }

  ghost predicate LockIsHeld(c: Config, s: State, k: int)
    requires WellFormed(c, s) && k in s.locks
  {
    s.locks[k] in c.procs && Busy(s.procs[s.locks[k]].phase)
    && c.lockKey(s.procs[s.locks[k]].phase.a.target) == k
  }

  /** Every process inside an act holds the lock of its target, and no lock is left behind. */
  ghost predicate LocksHeld(c: Config, s: State)
    requires WellFormed(c, s)
  {
    && (forall p :: p in c.procs ==> HoldsItsLock(c, s, p))
    && (forall k :: k in s.locks ==> LockIsHeld(c, s, k))
  }

  /** Two processes are never inside acts whose targets share a lock key, whatever the lock hash. */
  lemma MutualExclusion(c: Config, s: State, p: Pid, q: Pid)
    requires WellFormed(c, s) && LocksHeld(c, s) && p in c.procs && q in c.procs
    requires Busy(s.procs[p].phase) && Busy(s.procs[q].phase)
    requires c.lockKey(s.procs[p].phase.a.target) == c.lockKey(s.procs[q].phase.a.target)
    ensures p == q
  {
    assert HoldsItsLock(c, s, p) && HoldsItsLock(c, s, q);
  }

  /** A step of `p` keeps its lock, takes a free one, or gives its own back. */
  ghost predicate LockDelta(c: Config, s: State, s': State, p: Pid)
    requires WellFormed(c, s) && WellFormed(c, s') && p in c.procs
  {
    var ph, ph' := s.procs[p].phase, s'.procs[p].phase;
    && s'.procs == s.procs[p := s'.procs[p]]
    && (|| (s'.locks == s.locks && Busy(ph') == Busy(ph) && (Busy(ph) ==> ph'.a == ph.a))
        || (!Busy(ph) && Busy(ph') && c.lockKey(ph'.a.target) !in s.locks && s'.locks == s.locks[c.lockKey(ph'.a.target) := p])
        || (Busy(ph) && !Busy(ph') && s'.locks == s.locks - {c.lockKey(ph.a.target)}))
  }

  lemma LockStep(c: Config, s: State, e: Event)
    requires WellFormed(c, s) && IsLocal(e) && CanAct(c, s, e)
    ensures LockDelta(c, s, Step(c, s, e), e.p)
  {
    hide Bids.Resolve, Bids.OnePerAgent, Count, ApplyAction, RunsNow, Queues, RulingOf, FinalStatus, CapReached, Dequeue;
  }

  lemma LockDeltaKeepsLocks(c: Config, s: State, s': State, p: Pid)
    requires WellFormed(c, s) && WellFormed(c, s') && p in c.procs && LockDelta(c, s, s', p) && LocksHeld(c, s)
    ensures LocksHeld(c, s')
  {
    assert HoldsItsLock(c, s, p);
    forall q | q in c.procs ensures HoldsItsLock(c, s', q) { assert HoldsItsLock(c, s, q); }
    forall k | k in s'.locks ensures LockIsHeld(c, s', k) { assert k in s.locks ==> LockIsHeld(c, s, k); }
  }

  lemma StepKeepsLocks(c: Config, s: State, e: Event)
    requires WellFormed(c, s) && Enabled(c, s, e) && LocksHeld(c, s)
    ensures LocksHeld(c, Step(c, s, e))
  {
    if IsLocal(e) {
      LockStep(c, s, e);
      LockDeltaKeepsLocks(c, s, Step(c, s, e), e.p);
    } else {
      OperatorKeepsLocks(c, s, e);
    }
  }

  lemma OperatorKeepsLocks(c: Config, s: State, e: Event)
    requires WellFormed(c, s) && Enabled(c, s, e) && !IsLocal(e) && LocksHeld(c, s)
    ensures LocksHeld(c, Step(c, s, e))
  {
    var s' := Step(c, s, e);
    assert s'.procs == s.procs && s'.locks == s.locks;
    hide Step;
    forall q | q in c.procs ensures HoldsItsLock(c, s', q) { assert HoldsItsLock(c, s, q); }
    forall k | k in s'.locks ensures LockIsHeld(c, s', k) { assert LockIsHeld(c, s, k); }
  }

  // --- Audit rows -------------------------------------------------------------------------------

  ghost predicate Owns(c: Config, s: State, p: Pid, i: nat)
    requires WellFormed(c, s)
  {
    p in c.procs && OwnsRow(s.procs[p].phase) && s.procs[p].phase.row == i
  }

  /** The row a process is working on is its own, still open, and says what was decided. */
  ghost predicate OwnRowMatches(c: Config, s: State, p: Pid)
    requires WellFormed(c, s) && p in c.procs
  {
    var ph := s.procs[p].phase;
    OwnsRow(ph) ==>
      && ph.row < |s.rows| && ph.row !in s.abandoned
      && var r := s.rows[ph.row];
         r.action == ph.a && r.run == c.runOf(p) && r.ruling == RulingOf(ph.d) && r.status == Executing && !r.executed
  }

  /** A row is executed exactly when its status says so, and open exactly when unfinished. */
  ghost predicate RowConsistent(c: Config, s: State, i: nat)
    requires WellFormed(c, s) && i < |s.rows|
  {
    && s.rows[i].ts <= s.now
    && (s.rows[i].executed <==> s.rows[i].status == Executed)
    && (s.rows[i].status == Executing <==> i in s.abandoned || exists p :: Owns(c, s, p, i))
  }

  ghost predicate RowsConsistent(c: Config, s: State)
    requires WellFormed(c, s)
  {
    && (forall p :: p in c.procs ==> OwnRowMatches(c, s, p))
    && (forall p, q, i :: Owns(c, s, p, i) && Owns(c, s, q, i) ==> p == q)
    && (forall i :: 0 <= i < |s.rows| ==> RowConsistent(c, s, i))
    && (forall i :: i in s.abandoned ==> i < |s.rows|)
  }

  /** What a step of `p` does to the audit table: nothing, a write-ahead, an outcome, or abandoning a row. */
  ghost predicate RowDelta(c: Config, s: State, s': State, p: Pid)
    requires WellFormed(c, s) && WellFormed(c, s') && p in c.procs
  {
    var ph, ph' := s.procs[p].phase, s'.procs[p].phase;
    && s'.now == s.now && s'.procs == s.procs[p := s'.procs[p]]
    && (|| (s'.rows == s.rows && s'.abandoned == s.abandoned && OwnsRow(ph') == OwnsRow(ph)
            && (OwnsRow(ph) ==> ph'.row == ph.row && ph'.a == ph.a && ph'.d == ph.d))
        || (ph.Judged? && ph' == Logged(ph.a, ph.d, |s.rows|) && s'.abandoned == s.abandoned
            && s'.rows == s.rows + [Row(c.runOf(p), ph.a, RulingOf(ph.d), false, Executing, s.now)])
        || (ph.Performed? && ph.row < |s.rows| && !OwnsRow(ph') && s'.abandoned == s.abandoned
            && s'.rows == s.rows[ph.row := s.rows[ph.row].(executed := ph.executed,
                                           status := FinalStatus(s.rows[ph.row].ruling, ph.executed))])
        || (OwnsRow(ph) && !OwnsRow(ph') && s'.rows == s.rows && s'.abandoned == s.abandoned + {ph.row}))
  }

  lemma RowStep(c: Config, s: State, e: Event)
    requires WellFormed(c, s) && IsLocal(e) && CanAct(c, s, e)
    ensures RowDelta(c, s, Step(c, s, e), e.p)
  {
    hide Bids.Resolve, Bids.OnePerAgent, Count, ApplyAction, RunsNow, Queues, RulingOf, FinalStatus, CapReached, Dequeue;
  }

  lemma OwnRowStays(c: Config, s: State, s': State, p: Pid, q: Pid)
    requires WellFormed(c, s) && WellFormed(c, s') && p in c.procs && q in c.procs
    requires RowDelta(c, s, s', p) && RowsConsistent(c, s)
    ensures OwnRowMatches(c, s', q)
    ensures forall i :: Owns(c, s', q, i) ==> Owns(c, s, q, i) || (q == p && i == |s.rows|)
  {
    var ph := s.procs[p].phase;
    assert OwnRowMatches(c, s, p) && OwnRowMatches(c, s, q);
    assert OwnsRow(ph) ==> Owns(c, s, p, ph.row);
    assert OwnsRow(s.procs[q].phase) ==> Owns(c, s, q, s.procs[q].phase.row);
  }

  lemma SoleOwnerStays(c: Config, s: State, s': State, p: Pid, q: Pid, r: Pid, i: nat)
    requires WellFormed(c, s) && WellFormed(c, s') && p in c.procs
    requires RowDelta(c, s, s', p) && RowsConsistent(c, s) && Owns(c, s', q, i) && Owns(c, s', r, i)
    ensures q == r
  {
    OwnRowStays(c, s, s', p, q);
    OwnRowStays(c, s, s', p, r);
    assert OwnRowMatches(c, s, q) && OwnRowMatches(c, s, r);
    hide RowDelta;
  }

  lemma OperatorKeepsRows(c: Config, s: State, e: Event)
    requires WellFormed(c, s) && Enabled(c, s, e) && !IsLocal(e) && RowsConsistent(c, s)
    ensures RowsConsistent(c, Step(c, s, e))
  {
    var s' := Step(c, s, e);
    assert s'.procs == s.procs && s'.rows == s.rows && s'.abandoned == s.abandoned && s'.now >= s.now;
    hide Step;
    forall p, i: nat ensures Owns(c, s', p, i) <==> Owns(c, s, p, i) {}
    forall p | p in c.procs ensures OwnRowMatches(c, s', p) { assert OwnRowMatches(c, s, p); }
    forall i | 0 <= i < |s'.rows| ensures RowConsistent(c, s', i) { assert RowConsistent(c, s, i); }
  }

  lemma StepKeepsRows(c: Config, s: State, e: Event)
    requires WellFormed(c, s) && Enabled(c, s, e) && RowsConsistent(c, s)
    ensures RowsConsistent(c, Step(c, s, e))
  {
    var s' := Step(c, s, e);
    if IsLocal(e) {
      RowStep(c, s, e);
      RowDeltaKeepsRows(c, s, s', e.p);
    } else {
      OperatorKeepsRows(c, s, e);
    }
  }

  lemma RowDeltaKeepsRows(c: Config, s: State, s': State, p: Pid)
    requires WellFormed(c, s) && WellFormed(c, s') && p in c.procs
    requires RowDelta(c, s, s', p) && RowsConsistent(c, s)
    ensures RowsConsistent(c, s')
  {
    forall q | q in c.procs ensures OwnRowMatches(c, s', q) { OwnRowStays(c, s, s', p, q); }
    forall q, r, i | Owns(c, s', q, i) && Owns(c, s', r, i) ensures q == r { SoleOwnerStays(c, s, s', p, q, r, i); }
    forall i | 0 <= i < |s'.rows| ensures RowConsistent(c, s', i) { RowStaysConsistent(c, s, s', p, i); }
    AbandonedAreRows(c, s, s', p);
    hide RowDelta, OwnRowMatches, RowConsistent, Owns;
  }

  lemma AbandonedAreRows(c: Config, s: State, s': State, p: Pid)
    requires WellFormed(c, s) && WellFormed(c, s') && p in c.procs
    requires RowDelta(c, s, s', p) && RowsConsistent(c, s)
    ensures forall i :: i in s'.abandoned ==> i < |s'.rows|
  {
    assert OwnRowMatches(c, s, p);
  }

  lemma RowStaysConsistent(c: Config, s: State, s': State, p: Pid, i: nat)
    requires WellFormed(c, s) && WellFormed(c, s') && p in c.procs
    requires RowDelta(c, s, s', p) && RowsConsistent(c, s) && i < |s'.rows|
    ensures RowConsistent(c, s', i)
  {
    var ph := s.procs[p].phase;
    assert OwnRowMatches(c, s, p);
    assert OwnsRow(ph) ==> Owns(c, s, p, ph.row);
    if i < |s.rows| {
      assert RowConsistent(c, s, i);
      if q :| Owns(c, s, q, i) {
        assert q != p ==> Owns(c, s', q, i);
        assert OwnsRow(s'.procs[p].phase) && q == p ==> Owns(c, s', p, i);
      }
      forall q | Owns(c, s', q, i) ensures Owns(c, s, q, i) {}
    } else {
      assert Owns(c, s', p, i);
    }
  }

  // --- The blast-radius cap ---------------------------------------------------------------------

  /** Process `p` may still turn into an executed row in the hour after `w`. */
  ghost predicate CouldLand(c: Config, s: State, p: Pid, run: string, target: string, w: int)
    requires WellFormed(c, s)
  {
    && p in c.procs && c.runOf(p) == run
    && var ph := s.procs[p].phase;
       && InFlight(ph) && ph.a.target == target
       && if OwnsRow(ph) then ph.row < |s.rows| && w < s.rows[ph.row].ts <= w + HOUR else s.now <= w + HOUR
  }

  /** In every hour there is room for what has landed and for the one act that may still land. */
  ghost predicate CapKept(c: Config, s: State, run: string, target: string, w: int)
    requires WellFormed(c, s)
  {
    var n := Count(s.rows, LandedIn(run, target, w));
    n <= c.cap && forall p :: CouldLand(c, s, p, run, target, w) ==> n < c.cap
  }

  /** The check that lets an act through leaves room for it in every window it could land in. */
  lemma CheckLeavesRoom(c: Config, s: State, p: Pid, target: string, w: int)
    requires c.cap > 0 && !CapReached(c, s, p, target) && s.now <= w + HOUR
    ensures Count(s.rows, LandedIn(c.runOf(p), target, w)) < c.cap
  {
    CountWeaken(s.rows, LandedIn(c.runOf(p), target, w), ExecutedSince(c.runOf(p), target, s.now - HOUR));
  }

  /** What a process step does to the acts in flight: the rows part of `RowStep`, seen from outside. */
  ghost predicate FlightDelta(c: Config, s: State, s': State, p: Pid)
    requires WellFormed(c, s) && WellFormed(c, s') && p in c.procs
  {
    var ph, ph' := s.procs[p].phase, s'.procs[p].phase;
    && s'.now == s.now && s'.procs == s.procs[p := s'.procs[p]]
    && (InFlight(ph') ==> Busy(ph) && ph'.a == ph.a)
    && (|| (s'.rows == s.rows && !InFlight(ph'))
        || (s'.rows == s.rows && InFlight(ph) && OwnsRow(ph') == OwnsRow(ph) && (OwnsRow(ph) ==> ph'.row == ph.row))
        || (s'.rows == s.rows && !InFlight(ph) && ph' == Cleared(ph.a) && !CapReached(c, s, p, ph.a.target))
        || (ph.Judged? && ph' == Logged(ph.a, ph.d, |s.rows|)
            && s'.rows == s.rows + [Row(c.runOf(p), ph.a, RulingOf(ph.d), false, Executing, s.now)])
        || (ph.Performed? && ph.row < |s.rows| && !InFlight(ph')
            && s'.rows == s.rows[ph.row := s.rows[ph.row].(executed := ph.executed,
                                             status := FinalStatus(s.rows[ph.row].ruling, ph.executed))]))
  }

  lemma FlightStep(c: Config, s: State, e: Event)
    requires WellFormed(c, s) && IsLocal(e) && CanAct(c, s, e)
    ensures FlightDelta(c, s, Step(c, s, e), e.p)
  {
    hide Bids.Resolve, Bids.OnePerAgent, Count, ApplyAction, RunsNow, Queues, RulingOf, FinalStatus, CapReached, Dequeue;
  }

  /** How such a step changes what has landed in a window and whether `p` could still land there. */
  lemma LandingStep(c: Config, s: State, s': State, p: Pid, run: string, target: string, w: int)
    requires WellFormed(c, s) && WellFormed(c, s') && p in c.procs
    requires c.cap > 0 && RowsConsistent(c, s) && FlightDelta(c, s, s', p)
    ensures var n, n' := Count(s.rows, LandedIn(run, target, w)), Count(s'.rows, LandedIn(run, target, w));
            || (n' == n && (CouldLand(c, s', p, run, target, w) ==>
                              CouldLand(c, s, p, run, target, w) || n < c.cap))
            || (n' == n + 1 && CouldLand(c, s, p, run, target, w) && !CouldLand(c, s', p, run, target, w))
  {
    var ph, ph' := s.procs[p].phase, s'.procs[p].phase;
    var f := LandedIn(run, target, w);
    assert OwnRowMatches(c, s, p);
    if ph.Judged? && OwnsRow(ph') {
      CountAppend(s.rows, s'.rows[|s.rows|], f);
    } else if ph.Performed? && s'.rows != s.rows {
      CountUpdate(s.rows, ph.row, s'.rows[ph.row], f);
    } else if !InFlight(ph) && InFlight(ph') && s.now <= w + HOUR && c.runOf(p) == run && ph.a.target == target {
      CheckLeavesRoom(c, s, p, target, w);
    }
  }

  lemma OthersCouldLandBefore(c: Config, s: State, s': State, p: Pid, q: Pid, run: string, target: string, w: int)
    requires WellFormed(c, s) && WellFormed(c, s') && p in c.procs && q in c.procs
    requires FlightDelta(c, s, s', p) && RowsConsistent(c, s)
    requires q != p && CouldLand(c, s', q, run, target, w)
    ensures CouldLand(c, s, q, run, target, w)
  {
    assert OwnRowMatches(c, s, q);
    if OwnsRow(s.procs[q].phase) && OwnsRow(s.procs[p].phase) {
      assert Owns(c, s, q, s.procs[q].phase.row) && Owns(c, s, p, s.procs[p].phase.row);
    }
  }

  lemma FlightKeepsCap(c: Config, s: State, s': State, p: Pid, run: string, target: string, w: int)
    requires WellFormed(c, s) && WellFormed(c, s') && p in c.procs
    requires c.cap > 0 && RowsConsistent(c, s) && LocksHeld(c, s) && FlightDelta(c, s, s', p)
    requires CapKept(c, s, run, target, w)
    ensures CapKept(c, s', run, target, w)
  {
    LandingStep(c, s, s', p, run, target, w);
    var n, n' := Count(s.rows, LandedIn(run, target, w)), Count(s'.rows, LandedIn(run, target, w));
    forall q | CouldLand(c, s', q, run, target, w) ensures n' < c.cap {
      if q != p {
        OthersCouldLandBefore(c, s, s', p, q, run, target, w);
        if CouldLand(c, s, p, run, target, w) { MutualExclusion(c, s, p, q); }
      }
    }
  }

  lemma StepKeepsCap(c: Config, s: State, e: Event, run: string, target: string, w: int)
    requires c.cap > 0 && WellFormed(c, s) && Enabled(c, s, e) && RowsConsistent(c, s) && LocksHeld(c, s)
    requires CapKept(c, s, run, target, w)
    ensures CapKept(c, Step(c, s, e), run, target, w)
  {
    var s' := Step(c, s, e);
    if IsLocal(e) {
      FlightStep(c, s, e);
      FlightKeepsCap(c, s, s', e.p, run, target, w);
    } else {
      forall q | CouldLand(c, s', q, run, target, w) ensures CouldLand(c, s, q, run, target, w) {}
    }
  }
}
