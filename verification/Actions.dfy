/** Agent proposals and what the policy decides about them. */
module Actions {

  datatype Agent = Monitoring | Optimization | Schema | Recovery

  datatype Kind =
    | NoAction | RaiseAnomaly | Escalate
    | ScaleWorkers | AdjustPoolSlots | ReprioritizePipeline
    | AllowCompatible | ApplyMapping | QuarantinePartition | BlockIngestion
    | RetryWithBackoff | Replay | Rollback | PartialRecompute | EscalateToHuman

  /** A validated proposal. `target` is a dag, pipeline, dataset or pool name. */
  datatype Action = Action(agent: Agent, kind: Kind, target: string, confidence: real)

  /** Acknowledgements without side effects: they run in every execution mode. */
  predicate IsAuto(k: Kind) { k in {NoAction, RaiseAnomaly, AllowCompatible} }

  /** The kinds whose handler writes something; all others fall back to the no-op handler. */
  predicate HasHandler(k: Kind) { !IsAuto(k) && k !in {Escalate, EscalateToHuman} }

  /** Handlers that change something whenever they succeed; a rollback may find nothing to go back to. */
  predicate AlwaysChanges(k: Kind) { HasHandler(k) && k != Rollback }

  /** What the contract layer lets each agent propose. */
  function ActionTypes(a: Agent): set<Kind> {
    match a
    case Monitoring => {RaiseAnomaly, Escalate, NoAction}
    case Optimization => {ScaleWorkers, AdjustPoolSlots, ReprioritizePipeline, NoAction}
    case Schema => {AllowCompatible, ApplyMapping, QuarantinePartition, BlockIngestion, NoAction}
    case Recovery => {RetryWithBackoff, Replay, Rollback, PartialRecompute, EscalateToHuman, NoAction}
  }

  datatype Compat = Backward | Breaking | Unknown

  /** The facts the gate assembles for the policy engine. */
  datatype Context = Context(cost: real, budget: real, recent: nat, compat: Compat, prior: bool)

  datatype Decision = Decision(allowed: bool, escalate: bool)

  const RATE_LIMIT: nat := 5

  datatype Verdict = Allow | Deny | ToHuman | Contain

  /** The documented decision semantics, clause by clause. */
  function SpecVerdict(agent: Agent, kind: Kind, ctx: Context): Verdict {
    if ctx.recent >= RATE_LIMIT then Deny
    else if kind == NoAction then Allow
    else if kind !in ActionTypes(agent) then ToHuman
    else match agent
      case Monitoring => if kind == RaiseAnomaly then Allow else ToHuman
      case Optimization =>
        if kind == ReprioritizePipeline then Allow
        else if ctx.cost <= 0.0 || ctx.cost <= ctx.budget then Allow else Deny
      case Recovery =>
        if kind == EscalateToHuman then ToHuman
        else if kind == Rollback then (if ctx.prior then Allow else ToHuman)
        else Allow
      case Schema =>
        if kind in {QuarantinePartition, BlockIngestion} then Contain
        else if ctx.compat == Backward then Allow else ToHuman
  }

  function ToDecision(v: Verdict): Decision {
    match v
    case Allow => Decision(true, false)
    case Deny => Decision(false, false)
    case ToHuman => Decision(false, true)
    case Contain => Decision(true, true)
  }

  function OpaVerdict(d: Decision): Verdict {
    if d.allowed then (if d.escalate then Contain else Allow)
    else if d.escalate then ToHuman else Deny
  }

  /** The gate's answer when the policy engine cannot be reached or returns nothing. */
  const FAILSAFE := Decision(false, true)

  /** A policy that denies every agent whose recent-action count reached the limit. */
  ghost predicate GuardsRunaways(policy: (Action, Context) -> Decision) {
    forall a: Action, ctx: Context :: ctx.recent >= RATE_LIMIT ==> !policy(a, ctx).allowed
  }

  function SpecPolicy(): (Action, Context) -> Decision {
    (a: Action, ctx: Context) => ToDecision(SpecVerdict(a.agent, a.kind, ctx))
  }

  lemma SpecPolicyGuardsRunaways()
    ensures GuardsRunaways(SpecPolicy())
  {}

  /** The documented policy, action by action: what each agent may do and under which fact. */
  lemma SpecPolicyMeans(agent: Agent, kind: Kind, ctx: Context)
    ensures var d := ToDecision(SpecVerdict(agent, kind, ctx));
            && (ctx.recent >= 5 ==> d == Decision(false, false))
            && (ctx.recent < 5 && kind == NoAction ==> d == Decision(true, false))
            && (ctx.recent < 5 && kind != NoAction ==>
                  match agent
                  case Monitoring => d == Decision(kind == RaiseAnomaly, kind != RaiseAnomaly)
                  case Optimization =>
                    && (kind == ReprioritizePipeline ==> d == Decision(true, false))
                    && (kind in {ScaleWorkers, AdjustPoolSlots} ==>
                          d == Decision(ctx.cost <= 0.0 || ctx.cost <= ctx.budget, false))
                    && (kind !in {ReprioritizePipeline, ScaleWorkers, AdjustPoolSlots} ==> d == Decision(false, true))
                  case Recovery =>
                    && (kind in {RetryWithBackoff, Replay, PartialRecompute} ==> d == Decision(true, false))
                    && (kind == Rollback ==> d == Decision(ctx.prior, !ctx.prior))
                    && (kind !in {RetryWithBackoff, Replay, PartialRecompute, Rollback} ==> d == Decision(false, true))
                  case Schema =>
                    && (kind in {QuarantinePartition, BlockIngestion} ==> d == Decision(true, true))
                    && (kind in {AllowCompatible, ApplyMapping} ==> d == Decision(ctx.compat.Backward?, !ctx.compat.Backward?))
                    && (kind !in {QuarantinePartition, BlockIngestion, AllowCompatible, ApplyMapping} ==> d == Decision(false, true)))
  {}

  /** A proposal the contract layer accepts runs outright only if it is recognised and within its
      guard: the two decision encodings agree, and containment is the only allowed-with-page case. */
  lemma VerdictEncodingsAgree(agent: Agent, kind: Kind, ctx: Context, d: Decision)
    ensures OpaVerdict(ToDecision(SpecVerdict(agent, kind, ctx))) == SpecVerdict(agent, kind, ctx)
    ensures ToDecision(OpaVerdict(d)) == d
    ensures ToDecision(SpecVerdict(agent, kind, ctx)).allowed ==>
              kind in ActionTypes(agent) && ctx.recent < RATE_LIMIT
    ensures ToDecision(SpecVerdict(agent, kind, ctx)).allowed && ToDecision(SpecVerdict(agent, kind, ctx)).escalate ==>
              agent == Schema && kind in {QuarantinePartition, BlockIngestion}
  {}
}
