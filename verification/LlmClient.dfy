/** The model client: an in-run cache, a call and token budget, and degradation to no action. */
module LlmClient {

  /** The cache key: the agent and the material part of its snapshot. */
  datatype Key = Key(agent: string, material: string)

  /** A proposal: the action text, and the tokens the call that made it was billed. */
  datatype Result = Result(action: string, tokensIn: nat, tokensOut: nat)

  const BUDGET_EXHAUSTED := Result("no_action: budget exhausted; degraded to no_action", 0, 0)
  const UNAVAILABLE := Result("no_action: LLM unavailable; degraded to no_action", 0, 0)

  function Tokens(r: Result): nat { r.tokensIn + r.tokensOut }

  // --- One provider call, retried ---------------------------------------------------------------

  datatype Attempt = Done(result: Result) | Transient | Fatal

  datatype Reply = Success(result: Result) | Failure

  const ATTEMPTS: nat := 3

  method RunWithDegrade(attempts: nat -> Attempt) returns (reply: Reply)
    ensures reply == ReplyOf(attempts, 0)
  {
    for i := 0 to ATTEMPTS
      invariant ReplyOf(attempts, 0) == ReplyOf(attempts, i)
    {
      match attempts(i)
      case Done(r) => return Success(r);
      case Fatal => return Failure;
      case Transient =>
    }
    reply := Failure;
  }

  function ReplyOf(attempts: nat -> Attempt, i: nat): Reply
    decreases ATTEMPTS - i
  {
    if i >= ATTEMPTS then Failure
    else match attempts(i)
      case Done(r) => Success(r)
      case Fatal => Failure
      case Transient => ReplyOf(attempts, i + 1)
  }

  /** Retrying succeeds with `r` exactly when one of three attempts gives it and only transient ones came before. */
  lemma SucceedsIff(attempts: nat -> Attempt, r: Result)
    ensures ReplyOf(attempts, 0) == Success(r)
            <==> exists k: nat :: k < 3 && attempts(k) == Done(r) && forall j: nat :: j < k ==> attempts(j).Transient?
  {
    RetryFrom(attempts, 0, r);
  }

  lemma {:induction false} RetryFrom(attempts: nat -> Attempt, i: nat, r: Result)
    requires i <= ATTEMPTS
    ensures ReplyOf(attempts, i) == Success(r)
            <==> exists k: nat :: i <= k < ATTEMPTS && attempts(k) == Done(r) && forall j: nat :: i <= j < k ==> attempts(j).Transient?
    decreases ATTEMPTS - i
  {
    if i < ATTEMPTS { RetryFrom(attempts, i + 1, r); }
  }

  // --- The client's state -----------------------------------------------------------------------

  datatype Limits = Limits(maxCalls: int, maxTokens: int)

  /** Cache (with its insertion order), budget and lifetime counters. */
  datatype Client = Client(
    cache: map<Key, Result>, order: seq<Key>, calls: nat, tokens: nat,
    realCalls: nat, hits: nat, overBudget: nat, unavailable: nat, tokensIn: nat, tokensOut: nat, latencies: seq<int>)

  const FRESH := Client(map[], [], 0, 0, 0, 0, 0, 0, 0, 0, [])

  /** One proposal: its key, what the provider would reply, and how long that took. */
  datatype Ask = Ask(key: Key, reply: Reply, elapsed: int)

  predicate Exceeded(l: Limits, c: Client) { c.calls >= l.maxCalls || c.tokens >= l.maxTokens }

  function AfterPropose(l: Limits, c: Client, a: Ask): Client {
    if a.key in c.cache then c.(hits := c.hits + 1)
    else if Exceeded(l, c) then c.(overBudget := c.overBudget + 1)
    else match a.reply
      case Failure => c.(unavailable := c.unavailable + 1)
      case Success(r) =>
        Client(c.cache[a.key := r], c.order + [a.key], c.calls + 1, c.tokens + Tokens(r),
               c.realCalls + 1, c.hits, c.overBudget, c.unavailable,
               c.tokensIn + r.tokensIn, c.tokensOut + r.tokensOut, c.latencies + [a.elapsed])
  }

  function AnswerTo(l: Limits, c: Client, a: Ask): Result {
    if a.key in c.cache then c.cache[a.key]
    else if Exceeded(l, c) then BUDGET_EXHAUSTED
    else match a.reply
      case Failure => UNAVAILABLE
      case Success(r) => r
  }

  function Run(l: Limits, asks: seq<Ask>): Client {
    if asks == [] then FRESH else AfterPropose(l, Run(l, asks[..|asks| - 1]), asks[|asks| - 1])
  }

  // --- The books always balance -----------------------------------------------------------------

  /** Tokens billed for the cached results, in the order they were cached. */
  function Billed(cache: map<Key, Result>, order: seq<Key>): nat
    requires forall k :: k in order ==> k in cache
  {
    if order == [] then 0 else Billed(cache, order[..|order| - 1]) + Tokens(cache[order[|order| - 1]])
  }

  lemma {:induction false} BilledSame(cache: map<Key, Result>, more: map<Key, Result>, order: seq<Key>)
    requires forall k :: k in order ==> k in cache && k in more && cache[k] == more[k]
    ensures Billed(cache, order) == Billed(more, order)
  {
    if order != [] { BilledSame(cache, more, order[..|order| - 1]); }
  }

  /** The cache holds each billed call once, and nothing else. */
  ghost predicate CacheIsBills(cache: map<Key, Result>, order: seq<Key>, tokens: nat) {
    && (forall k :: k in order <==> k in cache)
    && (forall i, j :: 0 <= i < j < |order| ==> order[i] != order[j])
    && tokens == Billed(cache, order)
  }

  /** Calls made, charged, timed and cached are the same calls. */
  ghost predicate CountersAgree(c: Client) {
    && c.realCalls == c.calls == |c.cache| == |c.order| == |c.latencies|
    && c.tokensIn + c.tokensOut == c.tokens
  }

  /** A call is made only under both limits, so only the last one can cross the token limit. */
  ghost predicate WithinLimits(l: Limits, c: Client) {
    && (c.calls == 0 || c.calls <= l.maxCalls)
    && (c.order != [] ==> c.order[|c.order| - 1] in c.cache
                          && c.tokens - Tokens(c.cache[c.order[|c.order| - 1]]) < l.maxTokens)
  }

  ghost predicate Books(l: Limits, c: Client) { CacheIsBills(c.cache, c.order, c.tokens) && CountersAgree(c) && WithinLimits(l, c) }

  /** A proposal either leaves cache and budget alone, or records one call made under both limits. */
  ghost predicate NoCall(c: Client, d: Client) {
    && d.cache == c.cache && d.order == c.order && d.calls == c.calls && d.tokens == c.tokens
    && d.realCalls == c.realCalls && d.tokensIn == c.tokensIn && d.tokensOut == c.tokensOut
    && d.latencies == c.latencies
    && d.hits + d.overBudget + d.unavailable == c.hits + c.overBudget + c.unavailable + 1
  }

  ghost predicate OneCall(l: Limits, c: Client, d: Client, key: Key, r: Result) {
    && key !in c.cache && c.calls < l.maxCalls && c.tokens < l.maxTokens
    && d.cache == c.cache[key := r] && d.order == c.order + [key]
    && d.calls == c.calls + 1 && d.tokens == c.tokens + Tokens(r) && d.realCalls == c.realCalls + 1
    && d.tokensIn == c.tokensIn + r.tokensIn && d.tokensOut == c.tokensOut + r.tokensOut
    && |d.latencies| == |c.latencies| + 1
    && d.hits + d.overBudget + d.unavailable == c.hits + c.overBudget + c.unavailable
  }

  lemma ProposeIs(l: Limits, c: Client, a: Ask)
    ensures var d := AfterPropose(l, c, a);
            NoCall(c, d) || (a.reply.Success? && OneCall(l, c, d, a.key, a.reply.result))
  {}

  lemma OneCallKeepsCache(cache: map<Key, Result>, order: seq<Key>, tokens: nat, key: Key, r: Result)
    requires key !in cache && CacheIsBills(cache, order, tokens)
    ensures CacheIsBills(cache[key := r], order + [key], tokens + Tokens(r))
  {
    assert (order + [key])[..|order|] == order;
    assert forall k :: k in order + [key] <==> k in order || k == key;
    BilledSame(cache, cache[key := r], order);
  }

  lemma OneCallKeepsCounters(l: Limits, c: Client, d: Client, key: Key, r: Result)
    requires CountersAgree(c) && WithinLimits(l, c) && OneCall(l, c, d, key, r)
    ensures CountersAgree(d) && WithinLimits(l, d)
  {
    assert d.cache.Keys == c.cache.Keys + {key};
    assert d.order[|d.order| - 1] == key;
  }

  lemma NoCallKeepsBooks(l: Limits, c: Client, d: Client)
    requires Books(l, c) && NoCall(c, d)
    ensures Books(l, d)
  {
    hide CacheIsBills;
  }

  lemma OneCallKeepsBooks(l: Limits, c: Client, d: Client, key: Key, r: Result)
    requires Books(l, c) && OneCall(l, c, d, key, r)
    ensures Books(l, d)
  {
    hide CacheIsBills, CountersAgree, WithinLimits, Tokens;
    OneCallKeepsCache(c.cache, c.order, c.tokens, key, r);
    OneCallKeepsCounters(l, c, d, key, r);
  }

  lemma ProposeKeepsBooks(l: Limits, c: Client, a: Ask)
    requires Books(l, c)
    ensures Books(l, AfterPropose(l, c, a))
  {
    ProposeIs(l, c, a);
    var d := AfterPropose(l, c, a);
    hide *;
    if NoCall(c, d) { NoCallKeepsBooks(l, c, d); } else { OneCallKeepsBooks(l, c, d, a.key, a.reply.result); }
  }

  /** Every proposal ends in exactly one of four ways. */
  function Accounted(c: Client): nat { c.hits + c.overBudget + c.unavailable + c.realCalls }

  lemma ProposeAccounted(l: Limits, c: Client, a: Ask)
    ensures Accounted(AfterPropose(l, c, a)) == Accounted(c) + 1
  {}

  lemma FreshBalances(l: Limits)
    ensures Books(l, Run(l, [])) && Accounted(Run(l, [])) == 0
  {}

  /** Over any sequence of proposals: the books balance, and every proposal is accounted for once. */
  lemma {:induction false} RunBalances(l: Limits, asks: seq<Ask>)
    ensures var c := Run(l, asks);
            Books(l, c) && |asks| == Accounted(c)
  {
    if asks != [] {
      hide AfterPropose, Books, Accounted;
      RunBalances(l, asks[..|asks| - 1]);
      ProposeAccounted(l, Run(l, asks[..|asks| - 1]), asks[|asks| - 1]);
      ProposeKeepsBooks(l, Run(l, asks[..|asks| - 1]), asks[|asks| - 1]);
    } else {
      FreshBalances(l);
    }
  }

  /** The cap on calls holds, and tokens overshoot theirs by less than the last call's own tokens. */
  lemma CapsHold(l: Limits, asks: seq<Ask>)
    ensures var c := Run(l, asks);
            && c.calls <= (if l.maxCalls > 0 then l.maxCalls else 0)
            && (c.tokens > l.maxTokens >= 0 ==>
                  exists k :: k in c.cache && c.tokens - l.maxTokens < Tokens(c.cache[k]))
  {
    RunBalances(l, asks);
    var c := Run(l, asks);
    if c.tokens > l.maxTokens >= 0 {
      assert c.order != [];
      assert c.order[|c.order| - 1] in c.cache;
    }
  }

  // --- When the provider is asked ---------------------------------------------------------------

  /** A cached key is answered from the cache; under both limits the provider is really asked, and only once a
      limit is reached is a proposal refused. */
  lemma AskedIff(l: Limits, c: Client, a: Ask)
    ensures var d, r := AfterPropose(l, c, a), AnswerTo(l, c, a);
            if a.key in c.cache then r == c.cache[a.key] && d == c.(hits := c.hits + 1)
            else if c.calls < l.maxCalls && c.tokens < l.maxTokens then
              && d.overBudget == c.overBudget && d.hits == c.hits
              && (a.reply.Success? ==>
                    && r == a.reply.result && d.calls == c.calls + 1 && d.cache == c.cache[a.key := r]
                    && d.tokens == c.tokens + a.reply.result.tokensIn + a.reply.result.tokensOut)
              && (a.reply.Failure? ==> r == UNAVAILABLE && d == c.(unavailable := c.unavailable + 1))
            else r == BUDGET_EXHAUSTED && d == c.(overBudget := c.overBudget + 1)
  {}

  /** `n` proposals with keys of their own, each answered at no cost. */
  function Fresh(n: nat): seq<Ask> {
    if n == 0 then [] else Fresh(n - 1) + [Ask(Key("", seq(n, _ => 'x')), Success(Result("", 0, 0)), 0)]
  }

  lemma {:induction false} FreshAsks(l: Limits, n: nat)
    requires n <= l.maxCalls && l.maxTokens >= 1
    ensures var c := Run(l, Fresh(n));
            c.calls == n && c.tokens == 0 && forall k :: k in c.cache ==> |k.material| <= n
  {
    if n > 0 {
      FreshAsks(l, n - 1);
      var a := Ask(Key("", seq(n, _ => 'x')), Success(Result("", 0, 0)), 0);
      RunAppend(l, Fresh(n - 1), a);
      AskedIff(l, Run(l, Fresh(n - 1)), a);
      hide Run, AfterPropose;
    }
  }

  /** The cap on calls is met: some run makes exactly that many. */
  lemma CapIsMet(l: Limits) returns (asks: seq<Ask>)
    requires l.maxCalls >= 1 && l.maxTokens >= 1
    ensures Run(l, asks).calls == l.maxCalls
  {
    FreshAsks(l, l.maxCalls);
    asks := Fresh(l.maxCalls);
  }

  // --- Over time --------------------------------------------------------------------------------

  /** Results once cached stay, unchanged. */
  lemma {:induction false} CacheOnlyGrows(l: Limits, asks: seq<Ask>, n: nat)
    requires n <= |asks|
    ensures var c, d := Run(l, asks[..n]), Run(l, asks);
            forall k :: k in c.cache ==> k in d.cache && d.cache[k] == c.cache[k]
  {
    if n == |asks| {
      assert asks[..n] == asks;
    } else {
      CacheOnlyGrows(l, asks[..|asks| - 1], n);
      assert asks[..|asks| - 1][..n] == asks[..n];
    }
  }

  function AnswerAt(l: Limits, asks: seq<Ask>, i: nat): Result
    requires i < |asks|
  {
    AnswerTo(l, Run(l, asks[..i]), asks[i])
  }

  /** A real answer is the answer to every later proposal with the same key, budget or outage regardless. */
  lemma AnswersRepeat(l: Limits, asks: seq<Ask>, i: nat, j: nat)
    requires i < j < |asks| && asks[i].key == asks[j].key
    requires asks[i].key in Run(l, asks[..i + 1]).cache
    ensures AnswerAt(l, asks, j) == AnswerAt(l, asks, i)
    ensures Run(l, asks[..j + 1]) == var c := Run(l, asks[..j]); c.(hits := c.hits + 1)
  {
    assert asks[..j][..i + 1] == asks[..i + 1];
    CacheOnlyGrows(l, asks[..j], i + 1);
    assert asks[..i + 1][..i] == asks[..i] && asks[..i + 1][i] == asks[i];
    assert asks[..j + 1][..j] == asks[..j] && asks[..j + 1][j] == asks[j];
  }

  ghost predicate SameBooks(c: Client, d: Client) {
    c.cache == d.cache && c.order == d.order && c.calls == d.calls && c.tokens == d.tokens
  }

  lemma RunAppend(l: Limits, asks: seq<Ask>, a: Ask)
    ensures Run(l, asks + [a]) == AfterPropose(l, Run(l, asks), a)
  {
    assert (asks + [a])[..|asks|] == asks;
  }

  lemma SameBooksStep(l: Limits, c: Client, d: Client, b: Ask)
    requires SameBooks(c, d)
    ensures SameBooks(AfterPropose(l, c, b), AfterPropose(l, d, b)) && AnswerTo(l, c, b) == AnswerTo(l, d, b)
  {}

  lemma OutageKeepsBooks(l: Limits, c: Client, a: Ask)
    requires a.reply.Failure?
    ensures SameBooks(AfterPropose(l, c, a), c)
  {}

  /** An outage is neither remembered nor charged: every later answer is as if it had not been asked. */
  lemma {:induction false} OutageLeavesNoTrace(l: Limits, before: seq<Ask>, a: Ask, after: seq<Ask>, b: Ask)
    requires a.reply.Failure?
    ensures SameBooks(Run(l, before + [a] + after), Run(l, before + after))
    ensures AnswerTo(l, Run(l, before + [a] + after), b) == AnswerTo(l, Run(l, before + after), b)
    decreases |after|
  {
    hide AfterPropose, Run, SameBooks, AnswerTo;
    if after == [] {
      assert before + [a] + after == before + [a] && before + after == before;
      RunAppend(l, before, a);
      OutageKeepsBooks(l, Run(l, before), a);
    } else {
      var k := |after| - 1;
      OutageLeavesNoTrace(l, before, a, after[..k], b);
      assert before + [a] + after == (before + [a] + after[..k]) + [after[k]];
      assert before + after == (before + after[..k]) + [after[k]];
      RunAppend(l, before + [a] + after[..k], after[k]);
      RunAppend(l, before + after[..k], after[k]);
      SameBooksStep(l, Run(l, before + [a] + after[..k]), Run(l, before + after[..k]), after[k]);
    }
    SameBooksStep(l, Run(l, before + [a] + after), Run(l, before + after), b);
  }

  /** Once a limit is reached no further call is ever made. */
  lemma {:induction false} ExhaustionIsFinal(l: Limits, asks: seq<Ask>, n: nat)
    requires n <= |asks| && Exceeded(l, Run(l, asks[..n]))
    ensures var c, d := Run(l, asks[..n]), Run(l, asks);
            d.cache == c.cache && d.calls == c.calls && d.tokens == c.tokens && d.unavailable == c.unavailable
  {
    if n == |asks| {
      assert asks[..n] == asks;
    } else {
      assert asks[..|asks| - 1][..n] == asks[..n];
      ExhaustionIsFinal(l, asks[..|asks| - 1], n);
    }
  }

  // --- The classes ------------------------------------------------------------------------------

  class BudgetTracker {
    const limits: Limits
    var calls: nat
    var tokens: nat

    constructor (limits: Limits)
      ensures this.limits == limits && calls == 0 && tokens == 0
    {
      this.limits := limits;
      calls, tokens := 0, 0;
    }

    predicate IsExceeded(): (spent: bool)
      reads this
      ensures spent <==> !(calls < limits.maxCalls && tokens < limits.maxTokens)
    {
      calls >= limits.maxCalls || tokens >= limits.maxTokens
    }

    method Add(tokensIn: nat, tokensOut: nat)
      modifies this
      ensures calls == old(calls) + 1 && tokens == old(tokens) + tokensIn + tokensOut
    {
      calls := calls + 1;
      tokens := tokens + (tokensIn + tokensOut);
    }
  }

  class LLMClient {
    const budget: BudgetTracker
    var cache: map<Key, Result>
    ghost var order: seq<Key>
    var realCalls: nat
    var hits: nat
    var degradedBudget: nat
    var degradedUnavailable: nat
    var tokensIn: nat
    var tokensOut: nat
    var latencies: seq<int>

    ghost function State(): Client
      reads this, budget
    {
      Client(cache, order, budget.calls, budget.tokens,
             realCalls, hits, degradedBudget, degradedUnavailable, tokensIn, tokensOut, latencies)
    }

    constructor (limits: Limits)
      ensures fresh(budget) && budget.limits == limits && State() == FRESH
    {
      budget := new BudgetTracker(limits);
      cache, order, latencies := map[], [], [];
      realCalls, hits, degradedBudget, degradedUnavailable, tokensIn, tokensOut := 0, 0, 0, 0, 0, 0;
    }

    /** Answer from the cache, refuse when spent, else ask the provider up to three times. */
    method Propose(key: Key, attempts: nat -> Attempt, elapsed: int) returns (result: Result)
      modifies this, budget
      ensures var a := Ask(key, ReplyOf(attempts, 0), elapsed);
              && State() == AfterPropose(budget.limits, old(State()), a)
              && result == AnswerTo(budget.limits, old(State()), a)
      ensures key !in old(cache) && old(budget.calls) < budget.limits.maxCalls && old(budget.tokens) < budget.limits.maxTokens ==>
                && degradedBudget == old(degradedBudget)
                && (ReplyOf(attempts, 0).Success? ==> result == ReplyOf(attempts, 0).result && budget.calls == old(budget.calls) + 1)
                && (ReplyOf(attempts, 0).Failure? ==> result == UNAVAILABLE && budget.calls == old(budget.calls))
      ensures key !in old(cache) && (old(budget.calls) >= budget.limits.maxCalls || old(budget.tokens) >= budget.limits.maxTokens) ==>
                result == BUDGET_EXHAUSTED && degradedBudget == old(degradedBudget) + 1 && budget.calls == old(budget.calls)
    {
      if key in cache {
        hits := hits + 1;
        return cache[key];
      }
      if budget.IsExceeded() {
        degradedBudget := degradedBudget + 1;
        return BUDGET_EXHAUSTED;
      }
      var unavailableBefore := degradedUnavailable;
      var reply := RunWithDegrade(attempts);
      if reply.Failure? {
        degradedUnavailable := degradedUnavailable + 1;
        result := UNAVAILABLE;
      } else {
        result := reply.result;
      }
      if degradedUnavailable != unavailableBefore { return; }
      realCalls := realCalls + 1;
      tokensIn, tokensOut := tokensIn + result.tokensIn, tokensOut + result.tokensOut;
      latencies := latencies + [elapsed];
      budget.Add(result.tokensIn, result.tokensOut);
      cache, order := cache[key := result], order + [key];
    }
  }
}
