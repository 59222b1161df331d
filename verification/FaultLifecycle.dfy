/** The life of a failure event: raised, detected and resolved by loop processes and human passes. */
module FaultLifecycle {
  import opened Options

  datatype Kind = IngressBurst | ResourceContention | SchemaDrift | OtherKind(name: nat)

  /** What makes two open faults the same to the monitor: fault type and target. */
  datatype Key = Key(kind: Kind, target: nat)

  datatype Resolver = Nobody | Agent | Human

  datatype Fault = Fault(key: Key, injected: int, detected: Option<int>, resolved: Option<int>, resolver: Resolver, raised: bool)

  /** An anomaly of a snapshot; an echoed one restates a fault that is already open. */
  datatype Anomaly = Anomaly(echo: bool, key: Key)

  datatype Role = Recovery | Optimization | Schema

  /** A loop process is either idle or inside `observe`, holding what it read and what it inserted since. */
  datatype Loop = Idle | Observing(open: set<Key>, seen: set<Key>)

  /** `passes` holds, for each human pass under way, the rows it fetched open and has not written yet. */
  datatype State = State(now: int, faults: seq<Fault>, loops: map<nat, Loop>, passes: map<nat, set<nat>>)

  datatype Event =
    | Wait(time: nat)
    | Inject(key: Key)
    | BeginObserve(p: nat)
    | See(p: nat, anomaly: Anomaly)
    | EndObserve(p: nat)
    | Crash(p: nat)
    | Raise
    | Remedy(role: Role)
    | NoticeOpen
    | Fetch(h: nat)
    | HumanWrite(h: nat, i: nat, at: int)
    | EndPass(h: nat)

  const INITIAL := State(0, [], map[], map[])

  function LoopOf(loops: map<nat, Loop>, p: nat): Loop { if p in loops then loops[p] else Idle }

  predicate IsOpen(f: Fault) { f.resolved.None? }

  function OpenKeys(faults: seq<Fault>): set<Key> { set i | 0 <= i < |faults| && IsOpen(faults[i]) :: faults[i].key }

  function New(key: Key, now: int, raised: bool): Fault { Fault(key, now, None, None, Nobody, raised) }

  predicate IsNew(l: Loop, a: Anomaly) { l.Observing? && !a.echo && a.key !in l.open && a.key !in l.seen }

  /** `SET detected_ts = now() WHERE detected_ts IS NULL`. */
  function Detect(f: Fault, now: int): Fault { if f.detected.None? then f.(detected := Some(now)) else f }

  predicate Covers(role: Role, k: Kind) {
    match role
    case Recovery => true
    case Optimization => k.IngressBurst? || k.ResourceContention?
    case Schema => k.SchemaDrift?
  }

  /** `SET resolved_ts = now() WHERE ... detected_ts IS NOT NULL AND resolved_ts IS NULL`. */
  function Resolve(role: Role, f: Fault, now: int): Fault {
    if Covers(role, f.key.kind) && f.detected.Some? && f.resolved.None?
    then f.(resolved := Some(now), resolver := Agent) else f
  }

  /** `SET detected_ts = COALESCE(detected_ts, injected_ts) WHERE resolved_ts IS NULL`. */
  function Notice(f: Fault): Fault {
    if f.resolved.None? && f.detected.None? then f.(detected := Some(f.injected)) else f
  }

  /** A human's resolution is written whatever the row says by then. */
  function HumanResolved(f: Fault, at: int): Fault { f.(resolved := Some(at), resolver := Human) }

  /** A whole undisturbed pass on one fault. */
  function HandToHuman(f: Fault, fixedDetection: bool, at: int): Fault {
    if f.resolved.Some? then f else HumanResolved(if fixedDetection then Notice(f) else f, at)
  }

  function DetectAll(faults: seq<Fault>, now: int): seq<Fault> {
    seq(|faults|, i requires 0 <= i < |faults| => Detect(faults[i], now))
  }

  function ResolveAll(role: Role, faults: seq<Fault>, now: int): seq<Fault> {
    seq(|faults|, i requires 0 <= i < |faults| => Resolve(role, faults[i], now))
  }

  function NoticeAll(faults: seq<Fault>): seq<Fault> {
    seq(|faults|, i requires 0 <= i < |faults| => Notice(faults[i]))
  }

  function OpenRows(faults: seq<Fault>): set<nat> { set i: nat | i < |faults| && IsOpen(faults[i]) }

  /** The pass `h` still has row `i` to write. */
  predicate HasToWrite(s: State, h: nat, i: nat) { h in s.passes && i in s.passes[h] && i < |s.faults| }

  function HandAllToHuman(faults: seq<Fault>, fixedDetection: bool, times: nat -> int): seq<Fault> {
    seq(|faults|, i requires 0 <= i < |faults| => HandToHuman(faults[i], fixedDetection, times(i)))
  }

  function Step(s: State, e: Event): State {
    match e
    case Wait(d) => s.(now := s.now + d)
    case Inject(k) => s.(faults := s.faults + [New(k, s.now, false)])
    case BeginObserve(p) => s.(loops := s.loops[p := Observing(OpenKeys(s.faults), {})])
    case See(p, a) =>
      var l := LoopOf(s.loops, p);
      if IsNew(l, a)
      then s.(faults := s.faults + [New(a.key, s.now, true)], loops := s.loops[p := l.(seen := l.seen + {a.key})])
      else s
    case EndObserve(p) => s.(loops := s.loops[p := Idle])
    case Crash(p) => s.(loops := s.loops[p := Idle])
    case Raise => s.(faults := DetectAll(s.faults, s.now))
    case Remedy(role) => s.(faults := ResolveAll(role, s.faults, s.now))
    case NoticeOpen => s.(faults := NoticeAll(s.faults))
    case Fetch(h) => s.(passes := s.passes[h := OpenRows(s.faults)])
    case HumanWrite(h, i, at) =>
      if HasToWrite(s, h, i)
      then s.(faults := s.faults[i := HumanResolved(s.faults[i], at)], passes := s.passes[h := s.passes[h] - {i}])
      else s
    case EndPass(h) => s.(passes := s.passes - {h})
  }

  function Run(s: State, es: seq<Event>): State {
    if es == [] then s else Step(Run(s, es[..|es| - 1]), es[|es| - 1])
  }

  // --- One fault's life -------------------------------------------------------------------------

  /** How one step may change one row: not at all, by writing a stamp that was missing, or by a human's resolution. */
  ghost predicate Advances(f: Fault, g: Fault, now: int) {
    && g.key == f.key && g.injected == f.injected && g.raised == f.raised
    && (f.detected.Some? ==> g.detected == f.detected)
    && (f.resolved.Some? ==> g.resolved.Some? && (g.resolver.Human? || (g.resolved == f.resolved && g.resolver == f.resolver)))
    && (g.detected != f.detected ==> g.detected == Some(now) || g.detected == Some(f.injected))
    && (f.resolved.None? && g.resolved.Some? ==>
          g.resolver.Human? || (g.resolver.Agent? && f.detected.Some? && g.resolved == Some(now)))
    && (g.resolved.None? ==> g.resolver == f.resolver)
  }

  lemma StepAdvances(s: State, e: Event)
    ensures var t := Step(s, e);
            && |s.faults| <= |t.faults| <= |s.faults| + 1 && s.now <= t.now
            && (forall i :: 0 <= i < |s.faults| ==> Advances(s.faults[i], t.faults[i], s.now))
            && (|t.faults| > |s.faults| ==>
                  exists k, r :: t.faults[|s.faults|] == New(k, s.now, r))
  {
    match e
    case Inject(k) => assert Step(s, e).faults[|s.faults|] == New(k, s.now, false);
    case See(p, a) =>
      if IsNew(LoopOf(s.loops, p), a) { assert Step(s, e).faults[|s.faults|] == New(a.key, s.now, true); }
    case NoticeOpen =>
      forall i | 0 <= i < |s.faults| ensures Advances(s.faults[i], Step(s, e).faults[i], s.now) {
        assert Step(s, e).faults[i] == Notice(s.faults[i]);
      }
    case Raise =>
      forall i | 0 <= i < |s.faults| ensures Advances(s.faults[i], Step(s, e).faults[i], s.now) {
        assert Step(s, e).faults[i] == Detect(s.faults[i], s.now);
      }
    case _ =>
  }

  /** What the agents' hooks and the observation write, row by row. */
  lemma HooksMean(s: State, role: Role, i: nat)
    requires i < |s.faults|
    ensures var f, raised, remedied := s.faults[i], Step(s, Raise).faults[i], Step(s, Remedy(role)).faults[i];
            && raised == (if f.detected.None? then f.(detected := Some(s.now)) else f)
            && (if f.detected.Some? && f.resolved.None?
                   && (role == Recovery || (role == Optimization && f.key.kind in {IngressBurst, ResourceContention})
                       || (role == Schema && f.key.kind == SchemaDrift))
                then remedied == f.(resolved := Some(s.now), resolver := Agent) else remedied == f)
  {}

  /** A process starts observing with the keys of the faults open then, and inserts an anomaly exactly when it is no
      echo, was not open then, and was not inserted by it since. */
  lemma ObservingMeans(s: State, p: nat, a: Anomaly)
    ensures var l := LoopOf(Step(s, BeginObserve(p)).loops, p);
            l.Observing? && l.seen == {}
            && forall k :: k in l.open <==> exists i :: 0 <= i < |s.faults| && s.faults[i].key == k && s.faults[i].resolved.None?
    ensures var l, t := LoopOf(s.loops, p), Step(s, See(p, a));
            if l.Observing? && !a.echo && a.key !in l.open && a.key !in l.seen
            then && t.faults == s.faults + [Fault(a.key, s.now, None, None, Nobody, true)]
                 && LoopOf(t.loops, p) == Observing(l.open, l.seen + {a.key})
            else t == s
  {}

  /** A well-ordered life. */
  ghost predicate Coherent(f: Fault, now: int) {
    && f.injected <= now
    && (f.detected.Some? ==> f.injected <= f.detected.value <= now)
    && (f.resolved.Some? ==> !f.resolver.Nobody?)
    && (f.resolver.Agent? ==> f.resolved.Some? && f.detected.Some? && f.detected.value <= f.resolved.value <= now)
    && (f.resolved.None? ==> f.resolver.Nobody?)
  }

  lemma AdvanceKeepsCoherent(f: Fault, g: Fault, now: int, later: int)
    requires Coherent(f, now) && Advances(f, g, now) && now <= later
    ensures Coherent(g, later)
  {}

  ghost predicate AllCoherent(s: State) { forall i :: 0 <= i < |s.faults| ==> Coherent(s.faults[i], s.now) }

  lemma StepKeepsCoherent(s: State, e: Event)
    requires AllCoherent(s)
    ensures AllCoherent(Step(s, e))
  {
    StepAdvances(s, e);
    var t := Step(s, e);
    hide Step;
    forall i | 0 <= i < |t.faults| ensures Coherent(t.faults[i], t.now) {
      if i < |s.faults| { AdvanceKeepsCoherent(s.faults[i], t.faults[i], s.now, t.now); }
    }
  }

  /** In every run: injected <= detected, and an agent's resolution never precedes its detection. */
  lemma {:induction false} LivesAreCoherent(es: seq<Event>)
    ensures AllCoherent(Run(INITIAL, es))
  {
    if es != [] {
      LivesAreCoherent(es[..|es| - 1]);
      StepKeepsCoherent(Run(INITIAL, es[..|es| - 1]), es[|es| - 1]);
    }
  }

  /** A detection is written at most once, a resolved fault stays resolved, and nothing else of a row changes. */
  lemma {:induction false} StampsStay(es: seq<Event>, n: nat)
    requires n <= |es|
    ensures var s, t := Run(INITIAL, es[..n]), Run(INITIAL, es);
            && |s.faults| <= |t.faults|
            && forall i :: 0 <= i < |s.faults| ==>
                 && t.faults[i].key == s.faults[i].key && t.faults[i].injected == s.faults[i].injected
                 && (s.faults[i].detected.Some? ==> t.faults[i].detected == s.faults[i].detected)
                 && (s.faults[i].resolved.Some? ==> t.faults[i].resolved.Some?)
  {
    if n == |es| {
      assert es[..n] == es;
    } else {
      var k := |es| - 1;
      assert es[..k][..n] == es[..n];
      StampsStay(es[..k], n);
      StepAdvances(Run(INITIAL, es[..k]), es[k]);
      forall i | 0 <= i < |Run(INITIAL, es[..n]).faults|
        ensures Advances(Run(INITIAL, es[..k]).faults[i], Run(INITIAL, es).faults[i], Run(INITIAL, es[..k]).now) {}
    }
  }

  // --- Resolutions --------------------------------------------------------------------------------

  /** What was resolved in `s` is resolved in `t` by the same hand at the same time. */
  ghost predicate Keeps(s: State, t: State) {
    && |s.faults| <= |t.faults|
    && forall i :: 0 <= i < |s.faults| && s.faults[i].resolved.Some? ==>
                     t.faults[i].resolved == s.faults[i].resolved && t.faults[i].resolver == s.faults[i].resolver
  }

  ghost predicate ResolutionsAreFinal(es: seq<Event>) {
    forall m, n :: 0 <= m <= n <= |es| ==> Keeps(Run(INITIAL, es[..m]), Run(INITIAL, es[..n]))
  }

  /** A human's write meets a row that is no longer open, and says something else. */
  ghost predicate Overwrites(s: State, e: Event) {
    e.HumanWrite? && HasToWrite(s, e.h, e.i) && !IsOpen(s.faults[e.i]) && s.faults[e.i] != HumanResolved(s.faults[e.i], e.at)
  }

  ghost predicate NothingOverwritten(es: seq<Event>) {
    forall n :: 0 <= n < |es| ==> !Overwrites(Run(INITIAL, es[..n]), es[n])
  }

  lemma StepKeepsIff(s: State, e: Event)
    ensures Keeps(s, Step(s, e)) <==> !Overwrites(s, e)
  {
    if e.HumanWrite? {
      if Overwrites(s, e) { assert Step(s, e).faults[e.i] == HumanResolved(s.faults[e.i], e.at); }
    } else {
      StepAdvances(s, e);
      forall i | 0 <= i < |s.faults| && s.faults[i].resolved.Some?
        ensures Step(s, e).faults[i].resolved == s.faults[i].resolved && Step(s, e).faults[i].resolver == s.faults[i].resolver {
        ResolvedUntouched(s, e, i);
      }
    }
  }

  lemma ResolvedUntouched(s: State, e: Event, i: nat)
    requires !e.HumanWrite? && i < |s.faults| && s.faults[i].resolved.Some?
    ensures i < |Step(s, e).faults|
    ensures Step(s, e).faults[i].resolved == s.faults[i].resolved && Step(s, e).faults[i].resolver == s.faults[i].resolver
  {}

  lemma {:induction false} KeepsFrom(es: seq<Event>, m: nat, n: nat)
    requires m <= n <= |es| && NothingOverwritten(es)
    ensures Keeps(Run(INITIAL, es[..m]), Run(INITIAL, es[..n]))
  {
    if m < n {
      KeepsFrom(es, m, n - 1);
      RunStep(es, n);
      StepKeepsIff(Run(INITIAL, es[..n - 1]), es[n - 1]);
      hide Run, Step, Overwrites;
    }
  }

  lemma RunStep(es: seq<Event>, n: nat)
    requires 0 < n <= |es|
    ensures Run(INITIAL, es[..n]) == Step(Run(INITIAL, es[..n - 1]), es[n - 1])
  {
    assert es[..n][..n - 1] == es[..n - 1];
  }

  /** Every resolution stands for the rest of the run exactly when each human write finds its fault still open
      (or repeats what the row says): what a guard on the update would check. */
  lemma ResolutionsAreFinalIff(es: seq<Event>)
    ensures ResolutionsAreFinal(es) <==> NothingOverwritten(es)
  {
    hide Run, Step, Keeps, Overwrites;
    if NothingOverwritten(es) {
      forall m, n | 0 <= m <= n <= |es| ensures Keeps(Run(INITIAL, es[..m]), Run(INITIAL, es[..n])) { KeepsFrom(es, m, n); }
    }
    if ResolutionsAreFinal(es) {
      forall n | 0 <= n < |es| ensures !Overwrites(Run(INITIAL, es[..n]), es[n]) {
        RunStep(es, n + 1);
        StepKeepsIff(Run(INITIAL, es[..n]), es[n]);
        assert Keeps(Run(INITIAL, es[..n]), Run(INITIAL, es[..n + 1]));
      }
    }
  }

  /** An agent resolves a fault that a pass has fetched as open. */
  function Overlap(h: nat, k: Key, at: int): seq<Event> { [Inject(k), Raise, Fetch(h), Remedy(Recovery), HumanWrite(h, 0, at)] }

  /** The pass then replaces the agent's resolution. */
  lemma OverlapOverwrites(h: nat, k: Key, at: int)
    ensures var es := Overlap(h, k, at);
            && Run(INITIAL, es[..4]).faults == [Fault(k, 0, Some(0), Some(0), Agent, false)]
            && Run(INITIAL, es).faults == [Fault(k, 0, Some(0), Some(at), Human, false)]
            && !ResolutionsAreFinal(es)
  {
    var es := Overlap(h, k, at);
    var f := New(k, 0, false);
    assert es[..0] == [];
    RunStep(es, 1);
    assert Run(INITIAL, es[..1]) == State(0, [f], map[], map[]);
    RunStep(es, 2);
    assert Run(INITIAL, es[..2]) == State(0, [f.(detected := Some(0))], map[], map[]);
    RunStep(es, 3);
    assert OpenRows([f.(detected := Some(0))]) == {0};
    assert Run(INITIAL, es[..3]) == State(0, [f.(detected := Some(0))], map[], map[h := {0}]);
    RunStep(es, 4);
    var agents := Fault(k, 0, Some(0), Some(0), Agent, false);
    assert Run(INITIAL, es[..4]) == State(0, [agents], map[], map[h := {0}]);
    RunStep(es, 5);
    assert es[..5] == es;
    assert Run(INITIAL, es).faults == [HumanResolved(agents, at)];
    assert !Keeps(Run(INITIAL, es[..4]), Run(INITIAL, es[..5])) by { assert Run(INITIAL, es[..4]).faults[0].resolver == Agent; }
  }

  // --- Resolved implies detected ----------------------------------------------------------------

  ghost predicate Noticed(s: State) { forall i :: 0 <= i < |s.faults| && s.faults[i].resolved.Some? ==> s.faults[i].detected.Some? }

  /** A human's write meets a detected fault. */
  ghost predicate WriteSees(e: Event, s: State) {
    e.HumanWrite? && HasToWrite(s, e.h, e.i) ==> s.faults[e.i].detected.Some?
  }

  lemma StepNoticed(s: State, e: Event)
    requires Noticed(s) && AllCoherent(s)
    ensures Noticed(Step(s, e)) <==> WriteSees(e, s)
  {
    var t := Step(s, e);
    if e.HumanWrite? {
      if HasToWrite(s, e.h, e.i) { assert t.faults[e.i] == HumanResolved(s.faults[e.i], e.at); }
    } else {
      StepAdvances(s, e);
      forall i | 0 <= i < |s.faults| ensures t.faults[i].resolved.Some? ==> t.faults[i].detected.Some? {
        assert Advances(s.faults[i], t.faults[i], s.now) && Coherent(s.faults[i], s.now);
        OnlyAWriteIsHuman(s, e, i);
      }
    }
  }

  lemma OnlyAWriteIsHuman(s: State, e: Event, i: nat)
    requires !e.HumanWrite? && i < |s.faults|
    ensures i < |Step(s, e).faults| && (Step(s, e).faults[i].resolver.Human? ==> s.faults[i].resolver.Human?)
  {}

  ghost predicate NoticedThroughout(es: seq<Event>) { forall n :: 0 <= n <= |es| ==> Noticed(Run(INITIAL, es[..n])) }

  ghost predicate WritesSee(es: seq<Event>) {
    forall n :: 0 <= n < |es| ==> WriteSees(es[n], Run(INITIAL, es[..n]))
  }

  /** Resolved implies detected throughout a run exactly when every human write meets a detected fault. */
  lemma {:induction false} ResolvedIsDetectedIff(es: seq<Event>)
    ensures NoticedThroughout(es) <==> WritesSee(es)
  {
    if es == [] {
      assert Noticed(Run(INITIAL, [])) && es[..0] == [];
    } else {
      var k := |es| - 1;
      ResolvedIsDetectedIff(es[..k]);
      NoticedPrefix(es);
      WritesPrefix(es);
      LivesAreCoherent(es[..k]);
      if Noticed(Run(INITIAL, es[..k])) { StepNoticed(Run(INITIAL, es[..k]), es[k]); }
      hide Noticed, WriteSees, NoticedThroughout, WritesSee;
    }
  }

  lemma NoticedPrefix(es: seq<Event>)
    requires es != []
    ensures var k := |es| - 1;
            && (NoticedThroughout(es) <==> NoticedThroughout(es[..k]) && Noticed(Run(INITIAL, es)))
            && (NoticedThroughout(es[..k]) ==> Noticed(Run(INITIAL, es[..k])))
  {
    var k := |es| - 1;
    hide Run, Noticed;
    forall n | 0 <= n <= k ensures es[..k][..n] == es[..n] {}
    assert es[..|es|] == es && es[..k][..k] == es[..k];
  }

  lemma WritesPrefix(es: seq<Event>)
    requires es != []
    ensures var k := |es| - 1;
            WritesSee(es) <==> (WritesSee(es[..k]) && WriteSees(es[k], Run(INITIAL, es[..k])))
  {
    var k := |es| - 1;
    hide Run, WriteSees;
    forall n | 0 <= n < k ensures es[..k][..n] == es[..n] && es[..k][n] == es[n] {}
  }

  /** The writes of a pass, row by row. */
  function HumanWrites(h: nat, times: nat -> int, n: nat): seq<Event> {
    if n == 0 then [] else HumanWrites(h, times, n - 1) + [HumanWrite(h, n - 1, times(n - 1))]
  }

  /** A pass over `n` rows: stamp missing detections if asked to, fetch, write. */
  function PassOf(h: nat, fixedDetection: bool, times: nat -> int, n: nat): seq<Event> {
    (if fixedDetection then [NoticeOpen] else []) + [Fetch(h)] + HumanWrites(h, times, n)
  }

  /** The pass `h` over what was in `faults` has written its first `n` rows. */
  ghost predicate Wrote(faults: seq<Fault>, t: State, h: nat, times: nat -> int, n: nat) {
    && |t.faults| == |faults| && h in t.passes
    && (forall i :: i in t.passes[h] <==> n <= i < |faults| && IsOpen(faults[i]))
    && (forall i :: 0 <= i < n && i < |faults| ==> t.faults[i] == HandToHuman(faults[i], false, times(i)))
    && (forall i :: n <= i < |faults| ==> t.faults[i] == faults[i])
  }

  lemma WroteOne(faults: seq<Fault>, t: State, h: nat, times: nat -> int, n: nat)
    requires n < |faults| && Wrote(faults, t, h, times, n)
    ensures Wrote(faults, Step(t, HumanWrite(h, n, times(n))), h, times, n + 1)
  {}

  lemma {:induction false} WritesSoFar(faults: seq<Fault>, t: State, h: nat, times: nat -> int, n: nat)
    requires n <= |faults| && Wrote(faults, t, h, times, 0)
    ensures Wrote(faults, Run(t, HumanWrites(h, times, n)), h, times, n)
  {
    hide Wrote, Run, Step;
    if n == 0 {
      RunNone(t);
    } else {
      WritesSoFar(faults, t, h, times, n - 1);
      RunAppend(t, HumanWrites(h, times, n - 1), HumanWrite(h, n - 1, times(n - 1)));
      WroteOne(faults, Run(t, HumanWrites(h, times, n - 1)), h, times, n - 1);
    }
  }

  lemma RunNone(s: State)
    ensures Run(s, []) == s
  {}

  lemma {:induction false} RunConcat(s: State, a: seq<Event>, b: seq<Event>)
    ensures Run(s, a + b) == Run(Run(s, a), b)
  {
    RunNone(Run(s, a));
    hide Run, Step;
    if b == [] {
      assert a + b == a;
    } else {
      var k := |b| - 1;
      RunConcat(s, a, b[..k]);
      assert a + b == (a + b[..k]) + [b[k]] && b == b[..k] + [b[k]];
      RunAppend(s, a + b[..k], b[k]);
      RunAppend(Run(s, a), b[..k], b[k]);
    }
  }

  /** The pass up to its fetch. */
  lemma PassBegins(s: State, h: nat, fixedDetection: bool, times: nat -> int)
    ensures var t := Run(s, (if fixedDetection then [NoticeOpen] else []) + [Fetch(h)]);
            t.faults == (if fixedDetection then NoticeAll(s.faults) else s.faults) && Wrote(t.faults, t, h, times, 0)
  {
    var start := if fixedDetection then [NoticeOpen] else [];
    RunNone(s);
    if fixedDetection {
      RunAppend(s, [], NoticeOpen);
      assert [] + [NoticeOpen] == [NoticeOpen];
    }
    RunAppend(s, start, Fetch(h));
    hide Run;
  }

  /** An undisturbed pass resolves every open fault at its time, stamped at injection if asked to. */
  lemma PassIs(s: State, h: nat, fixedDetection: bool, times: nat -> int)
    ensures Run(s, PassOf(h, fixedDetection, times, |s.faults|)).faults == HandAllToHuman(s.faults, fixedDetection, times)
  {
    var start := (if fixedDetection then [NoticeOpen] else []) + [Fetch(h)];
    var n := |s.faults|;
    PassBegins(s, h, fixedDetection, times);
    hide Run, Step;
    RunConcat(s, start, HumanWrites(h, times, n));
    var t := Run(s, start);
    WritesSoFar(t.faults, t, h, times, n);
    var u := Run(t, HumanWrites(h, times, n));
    forall i | 0 <= i < n ensures u.faults[i] == HandAllToHuman(s.faults, fixedDetection, times)[i] {
      assert u.faults[i] == HandToHuman(t.faults[i], false, times(i));
    }
  }

  /** After an undisturbed pass nothing is open, and what stays undetected is exactly what was: resolved
      already, or open in a pass that does not stamp detections. */
  lemma HumanPassResolvesAll(es: seq<Event>, h: nat, fixedDetection: bool, times: nat -> int)
    ensures var s := Run(INITIAL, es);
            var t := Run(INITIAL, es + PassOf(h, fixedDetection, times, |s.faults|));
            && |t.faults| == |s.faults|
            && forall i :: 0 <= i < |t.faults| ==>
                 && t.faults[i].resolved == (if s.faults[i].resolved.Some? then s.faults[i].resolved else Some(times(i)))
                 && (t.faults[i].detected.None? <==>
                       s.faults[i].detected.None? && (s.faults[i].resolved.Some? || !fixedDetection))
  {
    var s := Run(INITIAL, es);
    RunConcat(INITIAL, es, PassOf(h, fixedDetection, times, |s.faults|));
    PassIs(s, h, fixedDetection, times);
  }

  // --- No duplicate open faults -----------------------------------------------------------------

  /** Only process `p` observes. */
  ghost predicate OneLoop(es: seq<Event>, p: nat) {
    forall i :: 0 <= i < |es| && es[i].BeginObserve? ==> es[i].p == p
  }

  ghost predicate NoDuplicates(faults: seq<Fault>) {
    forall i, j :: 0 <= i < j < |faults| && faults[i].raised && faults[j].raised && IsOpen(faults[i]) && IsOpen(faults[j])
                   ==> faults[i].key != faults[j].key
  }

  /** An observing process knows every open fault any monitor raised. */
  ghost predicate Knows(l: Loop, faults: seq<Fault>) {
    l.Observing? ==> forall i :: 0 <= i < |faults| && faults[i].raised && IsOpen(faults[i])
                                 ==> faults[i].key in l.open + l.seen
  }

  ghost predicate Deduplicated(s: State, p: nat) {
    && NoDuplicates(s.faults) && Knows(LoopOf(s.loops, p), s.faults)
    && (forall q :: q in s.loops && q != p ==> s.loops[q].Idle?)
  }

  /** Rows only lose openness, except a row raised as new by the one process. */
  lemma RowsKeepDeduplicated(faults: seq<Fault>, after: seq<Fault>, l: Loop, now: int)
    requires NoDuplicates(faults) && Knows(l, faults)
    requires |after| == |faults| && forall i :: 0 <= i < |faults| ==> Advances(faults[i], after[i], now)
    ensures NoDuplicates(after) && Knows(l, after)
  {
    assert forall i :: 0 <= i < |after| && IsOpen(after[i]) ==> IsOpen(faults[i]);
  }

  lemma RowAddedKeepsDeduplicated(faults: seq<Fault>, f: Fault, l: Loop)
    requires NoDuplicates(faults) && Knows(l, faults)
    requires f.raised ==> l.Observing? && f.key !in l.open + l.seen
    ensures NoDuplicates(faults + [f])
    ensures Knows(if l.Observing? && f.raised then l.(seen := l.seen + {f.key}) else l, faults + [f])
  {
    var after := faults + [f];
    if l.Observing? && f.raised {
      forall i | 0 <= i < |after| && after[i].raised && IsOpen(after[i])
        ensures after[i].key in l.open + (l.seen + {f.key}) {}
    }
  }

  lemma StepDeduplicated(s: State, e: Event, p: nat)
    requires Deduplicated(s, p) && (e.BeginObserve? ==> e.p == p)
    ensures Deduplicated(Step(s, e), p)
  {
    match e
    case Inject(k) => RowAddedKeepsDeduplicated(s.faults, New(k, s.now, false), LoopOf(s.loops, p));
    case See(q, a) =>
      if IsNew(LoopOf(s.loops, q), a) { RowAddedKeepsDeduplicated(s.faults, New(a.key, s.now, true), LoopOf(s.loops, p)); }
    case Raise =>
      StepAdvances(s, e);
      RowsKeepDeduplicated(s.faults, Step(s, e).faults, LoopOf(s.loops, p), s.now);
    case Remedy(_) =>
      StepAdvances(s, e);
      RowsKeepDeduplicated(s.faults, Step(s, e).faults, LoopOf(s.loops, p), s.now);
    case NoticeOpen =>
      StepAdvances(s, e);
      RowsKeepDeduplicated(s.faults, Step(s, e).faults, LoopOf(s.loops, p), s.now);
    case HumanWrite(_, _, _) =>
      StepAdvances(s, e);
      RowsKeepDeduplicated(s.faults, Step(s, e).faults, LoopOf(s.loops, p), s.now);
    case _ =>
  }

  /** Under one loop process, however it crashes and restarts, no two open faults it raised are the same. */
  lemma {:induction false} OneLoopNeverDuplicates(es: seq<Event>, p: nat)
    requires OneLoop(es, p)
    ensures Deduplicated(Run(INITIAL, es), p)
  {
    if es != [] {
      OneLoopNeverDuplicates(es[..|es| - 1], p);
      StepDeduplicated(Run(INITIAL, es[..|es| - 1]), es[|es| - 1], p);
    }
  }

  lemma RunAppend(s: State, es: seq<Event>, e: Event)
    ensures Run(s, es + [e]) == Step(Run(s, es), e)
  {
    assert (es + [e])[..|es|] == es;
  }

  /** With two processes it fails: both read before either inserts. */
  function Race(p: nat, q: nat, k: Key): seq<Event> {
    [BeginObserve(p), BeginObserve(q), See(p, Anomaly(false, k)), See(q, Anomaly(false, k))]
  }

  lemma TwoLoopsCanDuplicate(p: nat, q: nat, k: Key)
    requires p != q
    ensures !NoDuplicates(Run(INITIAL, Race(p, q, k)).faults)
  {
    var e0, e1: Event := BeginObserve(p), BeginObserve(q);
    var e2, e3: Event := See(p, Anomaly(false, k)), See(q, Anomaly(false, k));
    var l := Observing({}, {});
    assert OpenKeys([]) == {};
    RunAppend(INITIAL, [], e0);
    assert Run(INITIAL, [e0]) == State(0, [], map[p := l], map[]) by { assert [] + [e0] == [e0]; }
    RunAppend(INITIAL, [e0], e1);
    assert Run(INITIAL, [e0, e1]) == State(0, [], map[p := l, q := l], map[]) by { assert [e0] + [e1] == [e0, e1]; }
    RunAppend(INITIAL, [e0, e1], e2);
    var s := Run(INITIAL, [e0, e1, e2]);
    assert s.faults == [New(k, 0, true)] && s.now == 0 && LoopOf(s.loops, q) == l by {
      assert [e0, e1] + [e2] == [e0, e1, e2];
    }
    RunAppend(INITIAL, [e0, e1, e2], e3);
    assert [e0, e1, e2] + [e3] == [e0, e1, e2, e3];
    var d := Run(INITIAL, [e0, e1, e2, e3]).faults;
    assert d == [New(k, 0, true), New(k, 0, true)];
    assert d[0].key == d[1].key && IsOpen(d[0]) && IsOpen(d[1]);
  }

  /** Only these processes observe. */
  ghost predicate ObserversIn(es: seq<Event>, procs: set<nat>) {
    forall i :: 0 <= i < |es| && es[i].BeginObserve? ==> es[i].p in procs
  }

  ghost predicate NeverDuplicates(procs: set<nat>) {
    forall es: seq<Event> :: ObserversIn(es, procs) ==> NoDuplicates(Run(INITIAL, es).faults)
  }

  /** No run ever holds two equal open faults that were raised, exactly when at most one process observes. */
  lemma NeverDuplicatesIff(procs: set<nat>)
    ensures NeverDuplicates(procs) <==> forall p, q :: p in procs && q in procs ==> p == q
  {
    if p, q :| p in procs && q in procs && p != q {
      TwoLoopsCanDuplicate(p, q, Key(SchemaDrift, 0));
      assert ObserversIn(Race(p, q, Key(SchemaDrift, 0)), procs);
    } else {
      forall es: seq<Event> | ObserversIn(es, procs) ensures NoDuplicates(Run(INITIAL, es).faults) {
        var p: nat := 0;
        if q :| q in procs { p := q; }
        OneLoopNeverDuplicates(es, p);
      }
    }
  }

  // --- The agents' code -------------------------------------------------------------------------

  /** What one uninterrupted `observe` inserts. */
  function Raised(anomalies: seq<Anomaly>, open: set<Key>, now: int): seq<Fault> {
    if anomalies == [] then []
    else
      var k := |anomalies| - 1;
      var front := Raised(anomalies[..k], open, now);
      if anomalies[k].echo || anomalies[k].key in open || anomalies[k].key in KeysOf(front) then front
      else front + [New(anomalies[k].key, now, true)]
  }

  function KeysOf(faults: seq<Fault>): set<Key> { set i | 0 <= i < |faults| :: faults[i].key }

  /** Exactly the anomalies that are neither echoes nor already open, each once. */
  lemma {:induction false} RaisedExactlyTheNew(anomalies: seq<Anomaly>, open: set<Key>, now: int)
    ensures var r := Raised(anomalies, open, now);
            && (forall k :: k in KeysOf(r) <==> k !in open && Seen(anomalies, k))
            && (forall i, j :: 0 <= i < j < |r| ==> r[i].key != r[j].key)
            && (forall i :: 0 <= i < |r| ==> r[i] == New(r[i].key, now, true))
  {
    if anomalies != [] {
      var k := |anomalies| - 1;
      RaisedExactlyTheNew(anomalies[..k], open, now);
      var front := Raised(anomalies[..k], open, now);
      KeysAppend(front, New(anomalies[k].key, now, true));
      forall i | 0 <= i < |front| ensures front[i].key in KeysOf(front) {}
      forall key ensures Seen(anomalies, key) <==> Seen(anomalies[..k], key) || anomalies[k] == Anomaly(false, key) {
        SeenLast(anomalies, key);
      }
    }
  }

  lemma KeysAppend(front: seq<Fault>, f: Fault)
    ensures KeysOf(front + [f]) == KeysOf(front) + {f.key}
  {
    forall k ensures k in KeysOf(front + [f]) <==> k in KeysOf(front) + {f.key} {
      if k in KeysOf(front) {
        var i :| 0 <= i < |front| && front[i].key == k;
        assert (front + [f])[i].key == k;
      }
      assert (front + [f])[|front|] == f;
    }
  }

  ghost predicate Seen(anomalies: seq<Anomaly>, key: Key) {
    exists i :: 0 <= i < |anomalies| && anomalies[i] == Anomaly(false, key)
  }

  lemma SeenLast(anomalies: seq<Anomaly>, key: Key)
    requires anomalies != []
    ensures var k := |anomalies| - 1;
            Seen(anomalies, key) <==> Seen(anomalies[..k], key) || anomalies[k] == Anomaly(false, key)
  {
    var k := |anomalies| - 1;
    if Seen(anomalies, key) && anomalies[k] != Anomaly(false, key) {
      var i :| 0 <= i < |anomalies| && anomalies[i] == Anomaly(false, key);
      assert anomalies[..k][i] == Anomaly(false, key);
    }
    if Seen(anomalies[..k], key) {
      var i :| 0 <= i < k && anomalies[..k][i] == Anomaly(false, key);
      assert anomalies[i] == Anomaly(false, key);
    }
  }

  /** The steps of one uninterrupted `observe`. */
  function Observation(p: nat, anomalies: seq<Anomaly>): seq<Event> {
    if anomalies == [] then [BeginObserve(p)]
    else Observation(p, anomalies[..|anomalies| - 1]) + [See(p, anomalies[|anomalies| - 1])]
  }

  /** Taken together they insert exactly the new anomalies and remember their keys. */
  lemma {:induction false} ObservationInsertsTheNew(s: State, p: nat, anomalies: seq<Anomaly>)
    ensures var r := Raised(anomalies, OpenKeys(s.faults), s.now);
            Run(s, Observation(p, anomalies))
            == s.(faults := s.faults + r, loops := s.loops[p := Observing(OpenKeys(s.faults), KeysOf(r))])
  {
    if anomalies == [] {
      RunAppend(s, [], BeginObserve(p));
      assert [] + [BeginObserve(p)] == [BeginObserve(p)];
      assert s.faults + [] == s.faults && KeysOf([]) == {};
    } else {
      var k := |anomalies| - 1;
      ObservationInsertsTheNew(s, p, anomalies[..k]);
      RunAppend(s, Observation(p, anomalies[..k]), See(p, anomalies[k]));
      var front, f := Raised(anomalies[..k], OpenKeys(s.faults), s.now), New(anomalies[k].key, s.now, true);
      KeysAppend(front, f);
      assert (s.faults + front) + [f] == s.faults + (front + [f]);
    }
  }

  /** The failure-event table of one run, as the agents write it. */
  class FailureEvents {
    var faults: seq<Fault>

    constructor ()
      ensures faults == []
    {
      faults := [];
    }

    /** `MonitoringAgent.observe`: insert a row for each newly detected anomaly, and return those rows. */
    method Observe(anomalies: seq<Anomaly>, now: int) returns (newEntries: seq<Fault>)
      modifies this
      ensures newEntries == Raised(anomalies, OpenKeys(old(faults)), now)
      ensures faults == old(faults) + newEntries
    {
      var alreadyOpen := OpenKeys(faults);
      var seenThisTick: set<Key> := {};
      newEntries := [];
      for i := 0 to |anomalies|
        invariant newEntries == Raised(anomalies[..i], alreadyOpen, now)
        invariant seenThisTick == KeysOf(newEntries) && faults == old(faults) + newEntries
      {
        assert anomalies[..i + 1][..i] == anomalies[..i];
        var key := anomalies[i].key;
        if !anomalies[i].echo && key !in alreadyOpen && key !in seenThisTick {
          KeysAppend(newEntries, New(key, now, true));
          seenThisTick := seenThisTick + {key};
          faults := faults + [New(key, now, true)];
          newEntries := newEntries + [New(key, now, true)];
        }
      }
      assert anomalies[..|anomalies|] == anomalies;
    }

    /** The monitoring agent's hook: raising an anomaly marks the undetected faults. */
    method OnAfterMonitoring(raise: bool, now: int)
      modifies this
      ensures faults == if raise then DetectAll(old(faults), now) else old(faults)
    {
      if raise {
        for j := 0 to |faults|
          invariant |faults| == |old(faults)|
          invariant forall m :: 0 <= m < j ==> faults[m] == Detect(old(faults)[m], now)
          invariant forall m :: j <= m < |faults| ==> faults[m] == old(faults)[m]
        {
          if faults[j].detected.None? { faults := faults[j := faults[j].(detected := Some(now))]; }
        }
      }
    }

    /** A reactive agent's hook: an executed remedy resolves the detected open faults it covers. */
    method OnAfterRemedy(role: Role, executed: bool, remedial: bool, now: int)
      modifies this
      ensures faults == if executed && remedial then ResolveAll(role, old(faults), now) else old(faults)
    {
      if executed && remedial {
        for j := 0 to |faults|
          invariant |faults| == |old(faults)|
          invariant forall m :: 0 <= m < j ==> faults[m] == Resolve(role, old(faults)[m], now)
          invariant forall m :: j <= m < |faults| ==> faults[m] == old(faults)[m]
        {
          if Covers(role, faults[j].key.kind) && faults[j].detected.Some? && faults[j].resolved.None? {
            faults := faults[j := faults[j].(resolved := Some(now), resolver := Agent)];
          }
        }
      }
    }
  }
}
