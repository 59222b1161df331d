# ACDE verification model

A Dafny 4.11 model of the parts of ACDE, an agent governance runtime, whose correctness spans several
functions, several processes or a whole run. Tables are sequences or maps, one committed transaction is
one atomic step, time is an integer clock in microseconds, and a crash drops a process's local state and
its locks at any point. The policy engine, the model provider, lock hashes, content hashes, the latency
sampler and the outside world are arbitrary functions or inputs, so safety holds for all of them.

| module | what it models |
|---|---|
| Actions | proposals, decisions and the documented policy |
| Bids | per-tick bid resolution |
| GovernedLoop | the governed action protocol as a state machine: any number of loop processes, operator and clock |
| GovernedSafety | its invariants: mutual exclusion, row consistency, the hourly cap |
| GovernedAudit | its main results over all runs |
| GovernedSteps, GovernedTight | single steps spelled out; runs that meet the runaway and kill switch bounds exactly |
| GovernedRollback, RollbackRuns | the protocol over a live partition registry: when an executed rollback changes anything; runs that show what it may miss |
| LoopProcess | the code of one guarded act on the shared tables, whose result is where a run of that protocol leads |
| Naming, Partitions | slugs and table names; versioned partitions under concurrent creators, and the manager's own calls |
| Migrations | discovery, concurrent and crashing `apply` calls, one undisturbed call |
| Runner, Campaign | the two-file results log under crashes; the supervisor over several arms |
| Cost | the step integral and the ledger windows built from it |
| Pagination | the keyset-paginated audit export against the plain query |
| Windows | tumbling windows and the upserted table against a batch group-by |
| Holm | the Holm-Bonferroni adjustment against its definition and the step-down procedure |
| RateLimit | the fixed-window limiter, its fixed and sliding bounds |
| LlmClient | cache, budget and degradation of the model client |
| Incidents, FaultLifecycle | the simulated on-call human; a fault's life under agents and the human pass |
| Tally, StableSort, Options | counting rows, stable sorting, absent values |

`dafny verify dfyconfig.toml` checks everything.

Where the code turned out to meet a property only under a condition, the condition is proved exact:
reordering bids (no top ties), creators' rows (distinct joined slugs), the health wait (a positive retry
interval, no limit, or health returning), the upserted stream table (no reopened cell), Holm against step-down
(alpha at most 1), the paginated export (a batch size above 0), an executed rollback's effect (it picked a
version that is not active when it flips; the gate's answer decides that only while nobody moves the pointer),
distinct faults (at most one observing process), resolved implies detected (every human write meets a detected
fault), resolutions that stand (every human write meets an open fault or repeats what the row says), a campaign ending complete (no
work left and no abort count reached). Three results say more than the comments
in the code: with n loop processes on one run an agent can reach 4 + n allowed actions in ten minutes,
because the gate counts before its own row exists and the lock is per target; the rate limiter's sliding
bound is 2 limit - 1 and is reached; two monitoring processes can raise the same fault twice. With a failure
limit of 1, a failing child that nevertheless recorded the campaign's last run ends it as a failure abort, not
as complete.

Code and comments disagree in two places, and the model follows the code. The comment in
src/acde/telemetry/cost.py:65 says a window before the first sample starts with that sample's count; the
code counts nothing until the first sample. The docstring in src/acde/orchestrator/locks.py:6-8 says act
order decides between agents on a shared target; src/acde/orchestrator/loop.py:113-147 decides by bids first.

## Model

| member | source | states |
|---|---|---|
| Actions.SpecPolicyGuardsRunaways | src/acde/eval/adversarial_corpus.py:129-136 | the documented policy denies every proposal of an agent that already has five recent actions, whatever else the context says |
| Actions.VerdictEncodingsAgree | src/acde/eval/adversarial_corpus.py:129-169 | verdict and (allowed, escalate) pair translate back and forth without loss; whatever the documented policy allows is one of the agent's own action types and below the rate limit; allowed-with-page is only ever schema containment |
| Actions.SpecPolicyMeans | src/acde/eval/adversarial_corpus.py:129-160 | for each agent, action and fact the documented policy's (allowed, escalate) pair: five recent actions deny; rollbacks need a prior version, schema changes backward compatibility, scaling the budget; containment is allowed with a page; the rest goes to a human |
| Bids.ResolveConflicts | src/acde/orchestrator/loop.py:113-147 | the grouping-and-ranking loop computes the winners and the per-agent outbid notices that the lemmas below characterise |
| Bids.GroupByTarget | src/acde/orchestrator/loop.py:119-121 | the insertion-ordered dictionary holds, per target in order of first bid, exactly that target's bids in proposal order |
| Bids.NameLosers | src/acde/orchestrator/loop.py:136-137 | everyone ranked below the head of a contested target is told who outbid them, later notices overwriting earlier ones |
| Bids.OneMaximalWinnerPerTarget | src/acde/orchestrator/loop.py:113-147 | every target bid for has exactly one winner, and it is maximal in (agent priority, confidence) among that target's bids |
| Bids.WinnersRank | src/acde/orchestrator/loop.py:38-44 | on a contested target a recovery bid beats schema and schema beats optimization, and within an agent the higher confidence wins |
| Bids.WinnersAndLosersPartition | src/acde/orchestrator/loop.py:123-147 | winners and losing bids together are exactly the proposals, counted with multiplicity |
| Bids.ActsOrIsToldWhy | src/acde/orchestrator/loop.py:116-137 | with one proposal per agent, an agent either acts or is told the winner and target that outbid it, never both |
| Bids.OrderIrrelevantIffNoTies | src/acde/orchestrator/loop.py:129-135 | every reordering of the proposals yields the same set of winners if and only if no target has two different bids tied at the top |
| Bids.TiesAreDecidedByOrder | src/acde/orchestrator/loop.py:129-135 | for every top tie there are two orders of the same proposals that elect different winners |
| Bids.OnePerAgentHasNoTies | src/acde/orchestrator/loop.py:44 | one proposal per agent rules top ties out, since agent priorities differ |
| Bids.WinnersAtMostProposals | src/acde/orchestrator/loop.py:123-147 | a resolution never produces more winners than proposals |
| GovernedSafety.MutualExclusion | src/acde/orchestrator/locks.py:29-42 | two processes inside guarded acts never hold targets with the same lock key |
| GovernedSafety.StepKeepsLocks | src/acde/orchestrator/loop.py:79-93 | every step, interruption included, keeps each lock held by exactly the process inside the act it guards |
| GovernedSafety.StepKeepsRows | src/acde/agents/base.py:189-231 | every step keeps each audit row consistent with its status and with the one process, if any, that owns it |
| GovernedSafety.StepKeepsCap | src/acde/orchestrator/control.py:71-88 | every step keeps executed rows plus acts that could still land in an hour within the cap |
| GovernedAudit.BlastRadiusCap | src/acde/orchestrator/loop.py:79-93 | for any processes, interleaving, interruptions and lock hash, no hour holds more than the cap of executed rows for one run and target |
| GovernedAudit.RateBound | src/acde/policy/gate.py:46-53 | allowed rows of an agent in any ten minutes plus judged but unwritten ones stay within four plus the number of the run's processes |
| GovernedAudit.RunawayBound | src/acde/policy/gate.py:46-53 | with n loop processes any ten minutes hold at most 4 + n allowed rows of an agent; five when there is one process, for every policy that denies at five recent actions |
| GovernedTight.RunawayBoundIsMet | src/acde/policy/gate.py:46-53 | for every number of processes with targets of their own, some run under the documented policy records exactly 4 + n allowed rows of one agent at one moment |
| GovernedAudit.SpecPolicyRunawayBound | src/acde/eval/adversarial_corpus.py:129-136 | the documented policy keeps one loop process to five allowed rows per agent in any ten minutes |
| GovernedAudit.KillSwitchBound | src/acde/orchestrator/loop.py:157-178 | once the kill switch is on, a process begins at most one monitoring act plus one act per enabled reactive agent |
| GovernedTight.KillSwitchBoundIsMet | src/acde/orchestrator/loop.py:157-178 | for every configuration and process some run pauses just after a tick began and the process still begins exactly that many acts |
| GovernedAudit.AuditBeforeEffect | src/acde/agents/base.py:189-231 | every change of data or control plane has its own earlier, allowed audit row of an autonomous kind, or its own decided approval; no cause has two effects; an executed row or approval is an allowed one of the right kind, and certifies an effect for every kind whose handler always writes, that is all but rollback |
| GovernedAudit.EffectStepIsAuthorised | src/acde/policy/executor.py:289-338 | the step that makes a change is a process executing its own open allowed row, or the decision of an approval that is still pending |
| GovernedAudit.ExecutingRowsAreTheUnfinishedActs | src/acde/agents/base.py:214-231 | executed holds exactly with status executed, and the executing rows are exactly the acts a live process is in or that were cut short |
| GovernedAudit.ModeSafety | src/acde/policy/executor.py:280-317 | shadow mode never changes or queues anything, outside autonomous mode only approvals change anything, and denied or escalated rows have no effect in any mode |
| GovernedAudit.SignOffIsRespected | src/acde/policy/executor.py:280-317 | in every run the loop itself changes something, or executes more than an acknowledgement, only in autonomous mode and only for kinds that need no approval; only acts that need it, by mode or by kind, are ever queued |
| GovernedAudit.ExecutionMeans | src/acde/policy/executor.py:243-317 | the executing step told from decision, mode, the kinds that need approval, target and handler result: acknowledgements always run, an act that needs approval is queued once and does nothing, shadow does nothing, the run's own id is refused, an HTTP failure fails the act |
| GovernedRollback.RollbackChangesIff | src/acde/dataplane/partitions.py:152-172 | in every run over a live registry, its look, its listing and its flip being separate transactions with anybody in between: an executed rollback changes the registry, and leaves an effect, if and only if it picked a version and that version is not active when the flip runs; it is reported executed either way |
| GovernedRollback.UndisturbedRollbackChangesIff | src/acde/policy/gate.py:56-65 | if the partition's pointer never moves between a rollback's look and its flip, it changes the registry exactly when the gate's question would be answered yes as it lists the versions |
| GovernedRollback.FlightsOkThroughout | src/acde/dataplane/partitions.py:152-172 | in every run a rollback under way belongs to an action that may run, what it read was true when it read it, and what it picked is still registered |
| GovernedRollback.FindsIffPrior | src/acde/policy/gate.py:56-65 | asked in the same state, the gate's question is answered yes exactly when the rollback finds a version, and that version is registered and not active |
| GovernedRollback.OneActiveThroughout | src/acde/dataplane/partitions.py:115-136 | no run of loops, approvals, activations, quarantines and registrations leaves a partition with two active versions when there were none to begin with |
| RollbackRuns.RollbackCanFinish | src/acde/policy/executor.py:119-125 | from every run a rollback that may run can look, list and flip to its end, whatever the registry holds |
| RollbackRuns.ExecutedWithoutEffect | src/acde/human/approvals.py:76-102 | of two rollbacks the gate allowed on seeing a prior version, approved one after the other, both end as executed while the second changes nothing |
| RollbackRuns.RaceLosesARollback | src/acde/policy/executor.py:119-125 | two loops rolling one partition back under different locks: both rows end as executed and only one changed anything, although the gate would answer yes before the flips and after them |
| RollbackRuns.FlipAgainstTheGate | src/acde/dataplane/partitions.py:152-172 | if the lowest version is activated between its pick and its flip, a rollback moves the pointer up although the gate would by then answer no |
| LoopProcess.Tables.Approve | src/acde/human/approvals.py:76-102 | a pending approval becomes executed or failed as its handler ends and leaves an effect exactly when the handler touched something; anything not pending is left alone and reported not found |
| LoopProcess.ApproveIsAnEvent | src/acde/human/approvals.py:76-102 | that outcome is where the protocol's approval event leads, and the event is impossible exactly when the call finds nothing |
| LoopProcess.Tables.Reject | src/acde/human/approvals.py:105-116 | a pending approval becomes rejected; nothing else changes, and anything not pending is reported not found |
| LoopProcess.ControlLoop.TryLock | src/acde/orchestrator/locks.py:29-42 | the lock is taken if and only if its key was free, and otherwise the lock table is as before |
| LoopProcess.ControlLoop.BlastRadiusExceeded | src/acde/orchestrator/control.py:71-88 | the counting query answers whether the hour's executed rows reached the cap; a cap of 0 or less never does |
| LoopProcess.ControlLoop.Evaluate | src/acde/agents/base.py:174-180 | the gate judges with the agent's own ten-minute count and fails safe when the engine does not answer |
| LoopProcess.ControlLoop.Execute | src/acde/policy/executor.py:289-338 | executed exactly when the decision and mode let the handler run and it succeeds; one effect exactly when a running handler touched something; an act that needs approval by mode or kind is queued once, not executed and without effect, and in autonomous mode no other kind is queued |
| LoopProcess.ControlLoop.Act | src/acde/agents/base.py:163-231 | an undisturbed act adds exactly one finished row with the ruling, executed flag and final status that the policy's answer, the settings and the handler give, exactly the effect and approval that follow from them, and nothing else |
| LoopProcess.ControlLoop.ActOn | src/acde/orchestrator/loop.py:75-93 | the guarded act is skipped exactly when the target is locked or, with the lock free, the cap is reached; otherwise it reports whether it executed and leaves its row, effect and approval; all locks are as before |
| LoopProcess.ActOnMeans | src/acde/orchestrator/loop.py:75-93 | told from the tables alone: an act is skipped when its lock is taken or at least cap rows of its run and target executed within the hour; the policy is told the number of the agent's rows in ten minutes; row, effect and approval follow from its answer, mode, approval list, target and handler |
| LoopProcess.ActIsARun | src/acde/agents/base.py:163-231 | gate, write-ahead, execution and outcome are four protocol steps that lead to the act's stated result |
| LoopProcess.ActOnIsARun | src/acde/orchestrator/loop.py:75-93 | from every well-formed state in which the act is next in its process's queue, some events of the protocol lead exactly where the guarded act leads |
| LoopProcess.PlayExtendsRun | src/acde/orchestrator/loop.py:75-93 | playing events on from a reachable state is the longer run, so every result about runs applies to the code |
| LoopProcess.ActIsGoverned | src/acde/orchestrator/loop.py:75-93 | so after a guarded act from any reachable state the hourly cap holds and every effect has its audited cause |
| Naming.SlugFacts | src/acde/dataplane/partitions.py:22-24 | a slug has only lower-case letters, digits and underscores and neither starts nor ends with an underscore |
| Naming.SlugKeeps | src/acde/dataplane/partitions.py:19-24 | a slug keeps the text's letters and digits in order, leaves trimmed identifiers as they are, and puts a single underscore between the words of a text without underscores |
| Naming.NamesSpell | src/acde/dataplane/partitions.py:34-36 | how table names and run ids are spelt from their parts |
| Naming.DecimalSpells | src/acde/dataplane/partitions.py:34-36 | the number in a name is its decimal spelling, without a leading zero |
| Naming.TableNamesCollideIff | src/acde/dataplane/partitions.py:34-36 | two table names are equal exactly when versions and joined slugs are |
| Naming.TableNameInjective | src/acde/dataplane/partitions.py:34-36 | with slugs free of double underscores the table name determines both slugs and the version |
| Naming.DoubleUnderscoreCollides | src/acde/dataplane/partitions.py:22-36 | a slug with a double underscore lets two different partitions share a table name |
| Naming.SpellingsCollide | src/acde/dataplane/partitions.py:22-24 | two spellings of one slug share a table name |
| Naming.RunIdInjective | src/acde/experiments/runner.py:57-58 | run ids determine configuration, scenario and replicate when the names hold no double underscore |
| Partitions.GateAgreesWithRollback | src/acde/policy/gate.py:56-65 | in one state the gate's prior-version answer is yes exactly when the rollback it guards returns a version |
| Partitions.QuarantineMeans | src/acde/policy/executor.py:140-148 | a quarantined partition has no active version, and everything else in the registry is as before |
| Partitions.ActivationMeans | src/acde/dataplane/partitions.py:115-126 | after an activation exactly the given version of the partition is active if it is registered, and everything else is as before |
| Partitions.RollbackDescends | src/acde/dataplane/partitions.py:152-172 | from an active version of a gap-free partition, rollback moves to its immediate predecessor and stops at version 1 |
| Partitions.RollbacksDescend | src/acde/dataplane/partitions.py:152-172 | n rollbacks from version v leave version v - n active, or 1 once that is reached |
| Partitions.RollbackAnswers | src/acde/dataplane/partitions.py:152-172 | repeated from version v they answer v - 1, ..., 1 and then always that there is none |
| Partitions.VersionsAreOneToN | src/acde/dataplane/partitions.py:73-100 | under any interleaving of creators, activators, rollbacks, quarantines and crashes, the registered versions are exactly 1..n, at most one is active, and no commit hits the primary key |
| Partitions.CreatorsRowsSurvive | src/acde/dataplane/partitions.py:84-100 | with distinct table names, every registered version's table holds exactly what its creator was given |
| Partitions.TableNamesDistinctIff | src/acde/dataplane/partitions.py:34-36 | table names of different versions differ exactly when the partitions' joined slugs do |
| Partitions.CleanSlugsGiveDistinctStems | src/acde/dataplane/partitions.py:22-36 | distinct slug pairs free of double underscores give distinct joined slugs |
| Partitions.SharedStemClobbers | src/acde/dataplane/partitions.py:82-84 | when two partitions share a joined slug, a run exists that loses a registered version's rows |
| Partitions.RowsSurviveIffStemsDistinct | src/acde/dataplane/partitions.py:53-113 | in every run every registered version keeps its creator's rows if and only if the joined slugs in use are distinct |
| Partitions.PartitionVersionManager.NextVersion | src/acde/dataplane/partitions.py:45-51 | the next version is one more than the greatest registered, 1 for none |
| Partitions.PartitionVersionManager.CreateVersion | src/acde/dataplane/partitions.py:53-113 | an undisturbed creation registers the next version, fills its table with exactly the given rows, flips the pointer only when asked, and changes nothing else |
| Partitions.PartitionVersionManager.Activate | src/acde/dataplane/partitions.py:115-136 | the two updates flip the partition's pointer and touch no other partition |
| Partitions.PartitionVersionManager.GetActive | src/acde/dataplane/partitions.py:138-143 | the active version if there is one |
| Partitions.PartitionVersionManager.ListVersions | src/acde/dataplane/partitions.py:145-150 | exactly the registered versions, ascending |
| Partitions.PartitionVersionManager.Rollback | src/acde/dataplane/partitions.py:152-172 | activates the highest version below the active one, and changes nothing when there is none |
| Migrations.Discover | src/acde/migrations/__init__.py:62-83 | the directory is accepted exactly when every file is well named and no version repeats; the result lists exactly the files, ascending; a refusal names a real offender |
| Migrations.WellNamedIff | src/acde/migrations/__init__.py:35 | a file is well named exactly when it is three digits, an underscore, a word of lower-case letters, digits and underscores, and .sql |
| Migrations.VersionsSortLikeNames | src/acde/migrations/__init__.py:66-83 | versions are ordered, and equal, exactly as the file names' three digits are; name and content are the file's |
| Migrations.AppliedExactlyOnce | src/acde/migrations/__init__.py:129-176 | with any callers, crashes and directories: transactional SQL has taken effect once, with the recorded content, when its version is recorded and not at all otherwise; other SQL at least once when recorded; the primary key never refuses |
| Migrations.NoSqlAfterDrift | src/acde/migrations/__init__.py:102-111 | SQL only takes effect in a call whose directory agrees with everything recorded; a call that sees drift leaves without running any |
| Migrations.FinishedCallIsComplete | src/acde/migrations/__init__.py:129-155 | a call that reaches its end leaves every file of its directory recorded, unedited |
| Migrations.RecordedIsAPrefix | src/acde/migrations/__init__.py:141-150 | if new files only get higher versions, the recorded set is always an initial part of the file order |
| Migrations.DueIsUnrecorded | src/acde/migrations/__init__.py:142-145 | under the session lock a file unrecorded when the table was read is still unrecorded when its turn comes |
| Migrations.Database.VerifyNoDrift | src/acde/migrations/__init__.py:102-111 | drift is reported exactly when some recorded file's content changed, naming a recorded file |
| Migrations.Database.Apply | src/acde/migrations/__init__.py:129-155 | an undisturbed call refuses a bad directory, and drift exactly when there is some, naming a drifted file, having done nothing; otherwise it runs and records, in order, all that is pending, or stops at the first pending file whose SQL fails, everything before it done and recorded |
| Runner.ResultsDir.PersistRun | src/acde/experiments/runner.py:102-133 | dropping, writing rows and appending the manifest, killed after any number of writes, leaves exactly the files the attempt function says and keeps the log consistent |
| Runner.ResultsDir.LoadCompleted | src/acde/experiments/runner.py:196-204 | the completed runs are exactly the manifest's ids |
| Runner.ResultsDir.RunAll | src/acde/experiments/runner.py:281-303 | killed after any number of writes, the loop leaves exactly the files, number of finished runs and survival that the attempts in order come to, and lists those runs once each, in order |
| Runner.ResultsDir.RunProfile | src/acde/experiments/runner.py:269-303 | a call attempts exactly what the slice [:maxRuns] keeps of what remains of the profile, all of it without a limit, and finishes all of that when it survives |
| Runner.TodoIs | src/acde/experiments/runner.py:292-294 | the runs a call sets out to do: all that remain without a limit, the first k for a limit of k, all but the last k for minus k |
| Runner.RemainingIs | src/acde/experiments/runner.py:257-266 | a run remains exactly when it is in the profile, its id is not in the manifest, and its configuration is wanted |
| Runner.SurvivesIff | src/acde/experiments/runner.py:102-133 | a process survives a to-do list if and only if it is allowed the writes the list needs |
| Runner.DistinctIdsIff | src/acde/experiments/runner.py:57-58 | with configuration names free of double and trailing underscores, run ids are distinct exactly when the runs are |
| Runner.AttemptKeepsConsistent | src/acde/experiments/runner.py:102-133 | one attempt, cut anywhere, keeps one complete copy per listed run and all other rows with unlisted runs |
| Runner.AnyHistoryIsConsistent | src/acde/experiments/runner.py:102-204 | after any sequence of attempts, crashes and resumes, every listed run has exactly one complete copy of its rows, stray rows belong to unlisted runs, and no id is listed twice |
| Runner.RemainingDistinct | src/acde/experiments/runner.py:257-266 | what remains of a profile with distinct run ids is unlisted, wanted and distinct |
| Runner.CompletedProfile | src/acde/experiments/runner.py:257-303 | a profile run to its end leaves exactly one copy of every wanted run and nothing remaining |
| Campaign.WaitHealthy | src/acde/experiments/campaign.py:261-278 | the wait answers yes if and only if some probe is good with none good before and the time waited below the limit until then, and no if and only if the limit is reached with every probe bad |
| Campaign.WaitsAre | src/acde/experiments/campaign.py:261-278 | the same of the wait's definition, and never both |
| Campaign.WaitEndsIff | src/acde/experiments/campaign.py:261-278 | the wait ends if and only if the retry interval is positive, the limit is not, or some probe is good |
| Campaign.NextPending | src/acde/experiments/campaign.py:242-258 | the chosen arm has work and comes first in campaign order; none is chosen exactly when no arm has work |
| Campaign.MergedMeans | src/acde/experiments/campaign.py:242-258 | runs are recorded position by position when interleaving and arm by arm otherwise |
| Campaign.RecordExtends | src/acde/experiments/campaign.py:242-258 | recording the chosen arm's next run extends a merge that strictly increases in campaign order |
| Campaign.RunChild | src/acde/experiments/campaign.py:314-344 | one child either fails, counting toward the failure limit, or succeeds, resetting it and counting degraded live runs, and aborts exactly at the limits |
| Campaign.Guard | src/acde/experiments/campaign.py:296-312 | between runs: the next arm's child may start, or the campaign exits for the first of its reasons that applies, in the order done, stop file, changed code, live arm at the ceiling, stack that stayed unhealthy |
| Campaign.RunNext | src/acde/experiments/campaign.py:314-345 | running the child extends the campaign by one step and either ends it by an abort at exactly the configured count or leaves less work or more consecutive failures |
| Campaign.RunCampaign | src/acde/experiments/campaign.py:281-348 | the supervisor terminates in the campaign's outcome: every child was the next arm's, started past all guards and after a good probe; no abort count was reached before the last; the final state has its cause. Runs are neither lost nor repeated and are recorded in campaign order, and counted tokens overshoot the ceiling by less than one run |
| Campaign.OutcomeIsUnique | src/acde/experiments/campaign.py:281-348 | those conditions leave exactly one final state and one list of children |
| Campaign.CompleteIff | src/acde/experiments/campaign.py:281-348 | the campaign ends complete if and only if no work is left and no abort count was reached |
| Campaign.OutcomeMeans | src/acde/experiments/campaign.py:281-348 | every child ran on a stack that had turned healthy, without stop file or changed code, a paid one below the ceiling; a campaign stops, or gives up on the stack, only if the outside world says so, so never on a stack whose first probe is good; complete leaves nothing pending |
| Campaign.AbortsMean | src/acde/experiments/campaign.py:314-344 | the failure abort means the last so many children failed, by exit code or by recording nothing; the degraded abort means the last so many finished paid runs each had that many degraded calls |
| Campaign.LastRunCanAbort | src/acde/experiments/campaign.py:317-327 | with a failure limit of 1, a failing child that nevertheless recorded the only run ends the campaign as a failure abort although no work is left, and in no other state |
| Campaign.AbortsAtTheConfiguredCount | src/acde/experiments/campaign.py:317-327 | the failure abort comes at exactly the configured number of consecutive failures |
| Cost.IntegrateWorkerSeconds | src/acde/telemetry/cost.py:50-80 | the sweep returns the integral of the last-sample-at-or-before series over the window, 0 before the first sample, for samples in any order |
| Cost.IntegralAdds | src/acde/telemetry/cost.py:50-80 | integrals over adjacent windows add up |
| Cost.LaterSamplesIgnored | src/acde/telemetry/cost.py:107-115 | samples after the window's end do not change its integral |
| Cost.BestOfSort | src/acde/telemetry/cost.py:63 | stable sorting by time leaves the series as it was, the later of equal timestamps winning |
| Cost.CostOfTotals | src/acde/telemetry/cost.py:83-93 | a ledger's total cost is the rates applied to its compute and storage totals |
| Cost.CostOfSpan | src/acde/telemetry/cost.py:118-207 | a run's cost is the rates applied to the integrals and storage over the whole span, however it was cut into windows |
| Cost.RowsMean | src/acde/telemetry/cost.py:191-207 | storage is accounted by size and hours; a component that worked in a window has one row with its worker time, an idle one none |
| Cost.Ledger.WriteWindow | src/acde/telemetry/cost.py:191-207 | a window adds one row for each component with work in it, none for an idle one, and one storage row, and extends the account of every component to the window's end |
| Cost.Ledger.ComputeFixedSpan | src/acde/telemetry/cost.py:160-188 | for any window size the ledger accounts for exactly the fixed span |
| Cost.Ledger.ComputeCostWindows | src/acde/telemetry/cost.py:118-157 | without a fixed span the ledger covers ceil((last - first) / window) + 1 whole windows and accounts for all of them |
| Pagination.Export | src/acde/server/app.py:154-198 | the generator yields what paging over the successive states of the table yields, and returns when that does |
| Pagination.QueryHas | src/acde/server/app.py:154-183 | a row is in a page's query exactly when it is in the table, inside the given times and tenant, and after the cursor in (ts, action_id) |
| Pagination.ExportAscends | src/acde/server/app.py:176-198 | with rows inserted between pages the output still strictly ascends in (ts, action_id), without repeats, and holds only matching rows some page saw |
| Pagination.ExportComplete | src/acde/server/app.py:176-198 | a finished export holds every matching row that was there from the first page on |
| Pagination.ExportRefinesQuery | src/acde/server/app.py:154-198 | on a fixed table the pages in order are the whole sorted query, for every positive batch size |
| Pagination.CompleteIffPositiveBatch | src/acde/server/app.py:185-195 | the export equals the query on every table if and only if the batch size is not 0 |
| Windows.InItsWindowIff | src/acde/dataplane/streaming/windows.py:15-19 | for every width of at least a second, fractions cut off as the code does: an event lies in its own window except with a fractional time before the epoch whose truncation starts a window |
| Windows.WindowsTile | src/acde/dataplane/streaming/windows.py:15-19 | window starts are multiples of the width's whole seconds; a time has the start of the tile its whole seconds fall in; two windows are equal or at least a width apart |
| Windows.WindowAggregator.Add | src/acde/dataplane/streaming/windows.py:47-58 | an event is merged into its own cell, opened if need be, and no other cell changes |
| Windows.WindowAggregator.Flush | src/acde/dataplane/streaming/windows.py:60-65 | exactly the cells ending at or before the watermark are removed and returned, each once, in (window, key) order |
| Windows.WindowAggregator.FlushAll | src/acde/dataplane/streaming/windows.py:67-71 | every open cell is removed and returned once, in (window, key) order |
| Windows.PartsMergeToGroupBy | src/acde/dataplane/streaming/windows.py:33-71 | for every sequence of adds and flushes, emitted plus open parts of a cell merge to the batch group-by: count, sum and latest event time |
| Windows.GroupByIs | src/acde/dataplane/streaming/windows.py:33-58 | a cell's batch totals are the number of its events, the sum of their values and the latest of their times |
| Windows.TableIsGroupByIff | src/acde/dataplane/streaming/consumer.py:77-110 | after the final drain a cell's upserted row equals the group-by if and only if no event of the cell arrived after a flush had taken its window |
| Windows.ReopenedRowUndercounts | src/acde/dataplane/streaming/consumer.py:77-97 | a reopened cell's row counts strictly fewer events than the group-by |
| Windows.StreamSession.Consume | src/acde/dataplane/streaming/consumer.py:43-54 | a record reaches the aggregator and raises the latest event time |
| Windows.StreamSession.Tick | src/acde/dataplane/streaming/consumer.py:99-106 | the flusher flushes up to the latest event time seen, and not at all before the first event |
| Windows.StreamSession.Stop | src/acde/dataplane/streaming/consumer.py:129-143 | the session's table equals the batch group-by on exactly the cells never reopened |
| Holm.HolmBonferroni | src/acde/analysis/stats.py:63-78 | every result, in the original order, is the adjusted value by definition and rejects exactly when below alpha |
| Holm.RunMaxIsAdjusted | src/acde/analysis/stats.py:72-77 | the running maximum over ranks is, at every rank, the largest penalty among p-values up to the one there |
| Holm.AdjustedIsUnique | src/acde/analysis/stats.py:63-78 | the definition fixes the value, so equal p-values get equal results and reordering the inputs only reorders the results |
| Holm.AdjustedMonotone | src/acde/analysis/stats.py:76 | a larger p-value never gets a smaller adjustment |
| Holm.AdjustedBounds | src/acde/analysis/stats.py:63-78 | p <= adjusted <= 1 and adjusted <= m p for p-values in [0, 1] |
| Holm.LevelIs | src/acde/analysis/stats.py:72-76 | a p-value's own penalty is it times the number of p-values that are not smaller, capped at 1 |
| Holm.RejectsIffStepDown | src/acde/analysis/stats.py:63-78 | at a level up to 1 a rank is rejected exactly when the step-down procedure rejects it |
| Holm.AgreesOnAllIff | src/acde/analysis/stats.py:75-78 | adjusting and stepping down agree on all p-values if and only if alpha is at most 1 |
| RateLimit.RateLimiter.Check | src/acde/server/ratelimit.py:61-80 | a request is answered by its own key's earlier requests alone, the counter of rejections is exact, a limit of 0 or less admits everything and records nothing |
| RateLimit.FixedWindowBound | src/acde/server/ratelimit.py:61-80 | one fixed window admits at most the limit, and windows of a key start at least a window apart |
| RateLimit.SlidingBound | src/acde/server/ratelimit.py:50-53 | any half-open interval of window length admits at most 2 limit - 1 requests of a key |
| RateLimit.SlidingBoundIsMet | src/acde/server/ratelimit.py:50-53 | for every limit a trace admits exactly that many, so no smaller bound holds |
| RateLimit.TraceBounds | src/acde/server/ratelimit.py:61-80 | over any trace in time order both bounds hold for every key, whatever the other keys do |
| LlmClient.RunWithDegrade | src/acde/llm/client.py:228-260 | the retry loop returns what the first three attempts decide |
| LlmClient.SucceedsIff | src/acde/llm/client.py:239-260 | retrying returns a result exactly when one of three attempts gives it and only transient ones came before it |
| LlmClient.RunBalances | src/acde/llm/client.py:164-211 | after any proposals: real, charged, timed and cached calls are the same calls, budget tokens are the cached results' tokens, and every proposal is a hit, over budget, unavailable or a real call |
| LlmClient.CapsHold | src/acde/llm/client.py:39-53 | calls never exceed their cap, and tokens overshoot theirs by less than one cached call's own tokens |
| LlmClient.CapIsMet | src/acde/llm/client.py:48-53 | for all positive limits some run makes exactly the allowed number of calls |
| LlmClient.CacheOnlyGrows | src/acde/llm/client.py:168-171 | a cached result stays, unchanged, for the rest of the run |
| LlmClient.AnswersRepeat | src/acde/llm/client.py:168-171 | a real answer is the answer to every later proposal with the same key, as a cache hit |
| LlmClient.OutageLeavesNoTrace | src/acde/llm/client.py:200-204 | an outage is neither cached nor charged: removing it changes no later answer |
| LlmClient.ExhaustionIsFinal | src/acde/llm/client.py:174-188 | once a limit is reached no further call is made |
| LlmClient.AskedIff | src/acde/llm/client.py:164-211 | an uncached proposal under both limits is really asked: a success is returned, charged and cached, a failure counts as unavailable; it is refused exactly once a limit is reached |
| LlmClient.LLMClient.Propose | src/acde/llm/client.py:164-211 | a proposal answers and moves cache, budget and counters as the client function says; under both limits an uncached one is asked and never refused, and at a limit it is refused without a call |
| LlmClient.BudgetTracker.Add | src/acde/llm/client.py:51-53 | one call and its tokens in and out are charged |
| Incidents.FirstIs | src/acde/experiments/baseline.py:31-36 | the page found is the earliest open escalation since the fault, the lower key first on equal times; none is found exactly when there is none |
| Incidents.ResolvedThroughItsPage | src/acde/experiments/baseline.py:94-100 | a fault resolved before keeps its resolution; any other resolves at its page's request time plus the delay of its rank among all faults |
| Incidents.PagesAreDistinct | src/acde/experiments/baseline.py:54-60 | two incidents never share a page row |
| Incidents.PageIsEarliest | src/acde/experiments/baseline.py:31-52 | the page is the earliest open escalation, or one filed at the fault's detection when nobody escalated |
| Incidents.UndisturbedIncident | src/acde/experiments/baseline.py:29-69 | when every earlier incident is over before a fault is injected, the fault is paged by the earliest row of the original table still open and requested since, else by one filed at detection, and resolves at that time plus its own delay |
| Incidents.PagesCloseIff | src/acde/experiments/baseline.py:54-69 | a row open before the pass is completed exactly when it is an incident's own page or was requested between that incident's injection and resolution, at such a resolution; every other row stays as it is |
| Incidents.ReEscalationInvariant | src/acde/experiments/baseline.py:61-69 | one more escalation between an incident's page and its completion changes no fault's resolution and not the page |
| Incidents.AnyReEscalationsInvariant | src/acde/experiments/baseline.py:10-15 | neither do any number of them, wherever after the page they come |
| Incidents.OnCall.PageHuman | src/acde/experiments/baseline.py:29-69 | paging completes the page and exactly the open rows requested from the fault's injection to that completion; completed rows and all others stay |
| Incidents.OnCall.ResolveViaHuman | src/acde/experiments/baseline.py:72-103 | the pass leaves no fault open, counts the ones it resolved, and stamps at injection exactly the open undetected ones when asked to |
| FaultLifecycle.LivesAreCoherent | src/acde/agents/recovery.py:15-24 | in every run detection lies between injection and now, a fault is resolved exactly when it has a resolver, and a fault an agent resolved satisfies injected <= detected <= resolved |
| FaultLifecycle.ResolvedIsDetectedIff | src/acde/experiments/baseline.py:72-101 | with the pass's stamping, fetch and writes as steps anybody may come between: every fault resolved at any time in a run is detected by then if and only if every human write meets a detected fault |
| FaultLifecycle.StampsStay | src/acde/agents/monitoring.py:63-72 | in every run a detection is written at most once, a resolved fault stays resolved, and type, target and injection never change |
| FaultLifecycle.ResolutionsAreFinalIff | src/acde/experiments/baseline.py:91-100 | every resolution stands for the rest of the run if and only if each human write finds its fault still open or repeats what the row says |
| FaultLifecycle.OverlapOverwrites | src/acde/experiments/baseline.py:91-100 | an agent's resolution that falls between a pass's fetch and its write is replaced by the human's |
| FaultLifecycle.StepAdvances | src/acde/agents/optimization.py:21-30 | one step changes a row only by writing a missing stamp, at the time it runs or at injection, or by a human's resolution; an agent resolves only detected open faults |
| FaultLifecycle.HooksMean | src/acde/agents/monitoring.py:63-72 | raising stamps exactly the undetected faults; a remedy resolves exactly the detected open faults its agent covers: recovery all, optimization bursts and contention, schema drift |
| FaultLifecycle.ObservingMeans | src/acde/agents/monitoring.py:29-61 | an observation starts from the keys of the open faults and inserts exactly what is no echo, was not open then and was not inserted since |
| FaultLifecycle.HumanPassResolvesAll | src/acde/experiments/baseline.py:78-101 | an undisturbed pass after any run leaves every fault resolved, keeps earlier resolutions, and leaves undetected exactly the faults resolved undetected before and, without stamping, those that were open and undetected |
| FaultLifecycle.OneLoopNeverDuplicates | src/acde/agents/monitoring.py:29-61 | under one loop process, however often it crashes and restarts, no two open faults it raised share type and target |
| FaultLifecycle.TwoLoopsCanDuplicate | src/acde/agents/monitoring.py:29-61 | any two processes that both read before either inserts raise the same fault twice |
| FaultLifecycle.NeverDuplicatesIff | src/acde/agents/monitoring.py:29-61 | for every set of processes: all runs in which only they observe are free of duplicate open faults if and only if the set has at most one member |
| FaultLifecycle.RaisedExactlyTheNew | src/acde/agents/monitoring.py:36-59 | an observation raises exactly the anomalies that are neither echoes nor already open, each once |
| FaultLifecycle.ObservationInsertsTheNew | src/acde/agents/monitoring.py:29-61 | the observation's steps taken together insert exactly those rows |
| FaultLifecycle.FailureEvents.Observe | src/acde/agents/monitoring.py:29-61 | the loop inserts and returns exactly the new rows |
| FaultLifecycle.FailureEvents.OnAfterMonitoring | src/acde/agents/monitoring.py:63-72 | raising an anomaly stamps every undetected fault and no other |
| FaultLifecycle.FailureEvents.OnAfterRemedy | src/acde/agents/schema.py:20-29 | an executed remedy resolves exactly the detected open faults its agent covers |

## Left out

- HTTP, Airflow, Kafka, Docker, webhooks, PagerDuty and SQL text: an external action is a step that succeeds or fails, possibly after touching something.
- Connection pools, retries on database errors, isolation anomalies and a lock lost by a dropped connection while its holder runs: transactions are atomic and locks are held until release or crash.
- Two calls deciding one approval at once: the approvals table is read and written in one step, so a handler runs at most once per approval only for calls taken as a whole. A rollback's own transactions are taken apart in GovernedRollback, with no second decision of the same approval in between.
- LoopProcess.ControlLoop.ActOn: states the net result of an act nobody disturbs; what happens when others step in between is the protocol's subject.
- Acts that bypass the loop (`run_once`, `run_cycle`) and approved actions: they take neither the target lock nor the cap check, so the cap does not count them.
- GovernedRollback.RollbackChangesIff: takes the partition a rollback names as a function of the action, since an action's params are not modelled.
- Escalation rows and notifications written by the executor, params, justifications, token columns, tenants and environments: plain data copied along. The outcome text of an action is not modelled.
- The tick's scheduling code: starting a tick, handing the winners over and ending it are protocol events; only the guarded act itself is written out as code.
- Agent hooks run between recording an outcome and releasing the lock; their effect on faults is modelled in FaultLifecycle, not in the protocol.
- Airflow or HTTP failures of a handler that touched the control plane before failing are one input (`touched`); which of its statements ran is not.
- Partitions.RowsSurviveIffStemsDistinct: does not model that PostgreSQL cuts identifiers to 63 bytes, so two long slugs may meet in one table, or one partition's versions in each other's, although the stems differ.
- Unicode lower-casing before slugging: slugs take lower-cased text.
- `status()` of migrations, the lock of a dropped migration connection, SQL of a non-transactional file that fails half-way.
- Torn CSV lines and a raw.csv created but crashed before its header: files change row by row, the header is written on creation. Two runners on one results directory at once.
- Runner.ResultsDir.RunProfile: takes configurations that exist; the refusal of unknown names before anything runs is not modelled.
- The exported action log and provenance of a run: written between the rows and the manifest, without influence on either.
- Back-off and pause sleeps of the supervisor, the status file, stack-dumping watchdogs and child timeouts: a child is an exit code, a recorded flag, its tokens and its degraded calls.
- Floating point: rates, p-values and worker counts are reals, window widths and times whole microseconds; compute totals are worker-microseconds. The four-decimal rounding of stream sums and the one-decimal rounding of the retry hint are not modelled. NaN is not modelled.
- LlmClient.LLMClient.Propose: does not model the model name carried by results, an unknown provider's exception, or a budget shared between clients.
- Windows.StreamSession.Tick: flush and write are one step; in the code the write follows outside the lock, by the same task.
- Cost.Ledger.ComputeFixedSpan: takes the first sample's time as an argument; a run without samples, which leaves the old ledger in place, is not modelled.
- Pagination.Export: a table that grows for ever may be paged for ever; the method ends with the states it is given.
- FaultLifecycle.LivesAreCoherent: does not order a human's resolution after an agent's later detection, because a page may precede detection by more than the human's delay.
- Incidents.OnCall.ResolveViaHuman: is a pass nobody disturbs; what agents write to the faults meanwhile is modelled in FaultLifecycle, escalations filed meanwhile are not.
- Incidents.AnyReEscalationsInvariant: takes later escalations to have later keys, as a serial key gives them.
- Bootstrap, permutation and scipy-based tests, confidence intervals, figures, dashboards, reports and the command line: random, visual or plain aggregation.
- Authentication, roles and tenant filters of the server: per-request lookups.
