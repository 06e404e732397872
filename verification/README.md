# Amaryllis: verified models of its stateful core

Amaryllis runs agents in the background, schedules automations, remembers facts about its users and keeps
interactive sessions. This project models the parts of it that keep state over an unbounded history and proves
what every history guarantees. `dafny verify dfyconfig.toml` checks everything.

| files | what they model |
|---|---|
| `RunPolicy`, `RunProtocol`, `RunView`, `Histories` | an agent run: its row, its lease, its checkpoint log, the workers on it, and every database call they make as one step |
| `RunLife`, `RunStanding`, `LeaseEras`, `Cancellation`, `RunChains`, `UsageLedger`, `Takeover`, `Guardrail`, `AnyHistory`, `Handoff`, `KillSwitch` | whole attempts, and what leases, cancel requests, attempt limits, budgets, the budget guardrail, the queue and the kill switch guarantee |
| `Replay`, `Percentile` | replay of a checkpoint log, and run-health statistics |
| `Dispatch`, `AutomationHealth`, `AutomationOverlap`, `WatchScan`, `Schedule`, `NextRun`, `MissionPolicy` | the automation scheduler: one run per slot, failure escalation, watched directories, schedules and policies |
| `Memory`, `Grouping`, `Tournament`, `Supersession`, `Upserts`, `UpsertOverlap`, `Consolidation`, `ConsolidationLaws`, `MemoryWriters`, `WriterTurns` | semantic facts: storing one, consolidating all, both at the same time, and the graph of what superseded what |
| `Sessions` | the unified session manager |
| `Common`, `Text`, `Sorting`, `Backoff` | shared sequence, string, sorting and backoff functions |

## How the run protocol is modelled

A state holds the run rows, the workers between claim and release, and the next lease token. Every database call or
write transaction of `agents/agent_run_manager.py` is one step, so a read and the write decided by it are two steps
and anything may happen in between: other workers, cancels, kill switches, recoveries, lease expiry under arbitrary
clocks, workers that die. A history is any sequence of enabled steps from the empty state. `RunView` shows that each
run sees such a history as a history of its own moves, so invariants are proved for one run and hold for all.

`LegalUnder(EMPTY, steps, r, allowed)` restricts the moves of run `r` and of no other. Three restrictions are about
scheduling only. `Orderly`: attempts of one run do not overlap, so a run is claimed, resumed or recovered only while no
worker is between its claim and the end of its attempt; workers may die and their running row may be taken over, and
cancels and kill switches may strike at any time. `Timely`: a lease is not lost between the guard
and the append it protects. `FreshClose`: a closing worker's read of earlier breaches is not outdated as to whether
there are any. `Metered`, used for one result, also asks that no checkpoint of the run was refused before and that it
was not recovered after a crash. Everything else holds in all interleavings.

## What the proofs show about the code

- **A retry can be lost.** A retrying worker puts the run on the queue before it releases its lease
  (agents/agent_run_manager.py:1958-1961, 1551-1555), and a worker whose claim is refused drops the queue entry
  (1570-1577). `TurnLosesIff` shows that, crashes aside, this is the only way a queued run is forgotten: its last
  queue entry is taken while the lease is live. `LostForGood` shows that it then stays queued until it is canceled,
  killed or the process restarts.
- **The lease guard and the append are two calls** (agents/agent_run_manager.py:2523-2529). A worker that loses its
  lease in between still appends once. `RevokedWritesIff` gives the exact condition, `LeaseErasHold` the order that survives.
- **A cancel can be overtaken** by a worker that read the flag before it was set. `AttemptStartsIff` and
  `UncanceledEndIff` say exactly by which workers; with none in flight a cancel is final (`CancelIsFinal`).
- **Two overlapping attempts can each pause a run for its budget.** `BreachKeepsGuardrailIff` gives the exact
  condition; `TwoPausesReachable` is a history.
- **A takeover exceeds the limits.** A running row whose worker died can be claimed once its lease has expired
  (agents/agent_run_manager.py:1562-1569), by a queue entry left over from a canceled and resumed run or another
  manager's recovery. The new attempt counts past `max_attempts` and starts from the usage stored when the dead attempt
  began. `AttemptsStayWithinLimit` and `BudgetHoldsAcrossAttempts` allow exactly for that, and `TakeoversReachable`
  attains it.
- **The kill switch cuts its listing before it filters by scope** (agents/agent_run_manager.py:497-510), so runs of
  other users use up the limit. `KillReaches` says exactly which runs it reaches. It lists running runs first and queued
  runs second, so a run that starts in between escapes (`EscapesIff`), and one that starts after both is canceled even
  by a switch over queued runs only (`RunningRunKilledIff`).
- **A slot can produce more than one run**: after a stale take-over, or when creation raises after committing.
  `RunsPerSlot` bounds the runs by one plus those two counts, and `BoundAttained` attains the bound for all counts.
  Deleting the automation frees no slot, because its rows go with it and the foreign key refuses new ones
  (storage/migrations.py:579-589, storage/database.py:46): `RunsAfterDeletion`.
- **Overlapping triggers miscount.** A manual trigger takes no lease (automation/automation_scheduler.py:339-345), and a
  failing trigger writes absolute values computed from the row it was handed (773-842). So it undoes a concurrent pause
  (`FailureOverwritesPause`), errors are lost from the count and notices repeat (`OverlapMiscounts`), and after a policy
  change an automation can stay enabled past its disable threshold (`UpdateLeavesUnhealthy`). `ErrorKeepsCountIff` and
  `EndKeepsHealthIff` give the exact conditions, and `NoticesAreBounded` a bound that is attained.
- **Watched changes get one chance.** The cursor passes files that the report limit cuts off and files whose trigger
  fails afterwards, so they are never reported again (`OneChancePerVersion`). Overlapping passes report a change twice
  (`OverlapReportsTwice`) and can lower the cursor (`CursorFalls`); `StoreLowersIff` says exactly when.
- **Facts stored without a key compete with each other.** A null key prints as the word None and becomes a group of its
  own (memory/memory_manager.py:660-665, 770-772), so consolidation keeps only one of them (`NullKeysCompete`).
- **A key can get several active facts.** Storing a fact looks up the key's holder, adds the new fact and retires the
  holder in separate calls without a lock (memory/memory_manager.py:669-742), and the lookup reads 200 rows. The write
  keeps the holder unique if and only if it meets no active holder besides the one looked up (`UniqueHolderIff`).
  While the page is current that is a holder hidden behind it (`OverlookedIsHidden`, `SecondHolderReachable`).
  Overlapping upserts duplicate holders with nothing hidden (`OverlapDuplicatesHolder`); `HoldersAfterUpserts` counts
  them exactly for every interleaving, and `UpsertsStayGrounded` shows that at least no cycle results.
- **Writers that overlap a consolidation can form a cycle.** A fact is retired without a look at whether its winner is
  still active (storage/database.py:437-447). Two passes do it when the ranks of two facts cross between their clocks,
  however close together (`CrossingPassesLoop`). A pass that lists in the middle of an upsert does it whenever it ranks
  the holder above the fact about to replace it (`MixedWritersLoop`). `StaysGroundedIff` gives the exact condition on
  the writes of a history. Two conditions on the writers are enough: all rank alike and upserts only replace facts by
  higher-ranked ones (`WritersInStepStayGrounded`), or passes take turns and never list in the middle of an upsert
  (`WritersInTurnStayGrounded`).
- The documentation calls the queue with lease and compare-and-set the mechanism of run safety (README.md:49 of the
  repository). The closing writes of an attempt carry no lease condition (agents/agent_run_manager.py:1875-1956,
  2004-2076), and the model follows the code.

## Model

| member | source | states |
|---|---|---|
| `RunPolicy.ClassifyFailure` | agents/run_policy.py:33-109 | an error is retryable if and only if it is a lost lease, a timeout, or one that its provider or the classifier puts in one of the six transient classes; it is a budget breach if and only if it is a budget error, a guardrail that mentions the budget or so classified |
| `RunPolicy.FailureLabels` | agents/run_policy.py:33-109 | the class and stop reason of every kind of failure; classified errors keep their class |
| `RunPolicy.RetryDelayMonotoneAndCapped` | agents/run_policy.py:139-151 | without jitter, retry delays never shrink from attempt to attempt, start at the base and respect the ceiling |
| `RunPolicy.RetryDelayDoubles` | agents/run_policy.py:139-151 | without jitter, the first delay is the base and each further one twice the one before, up to the ceiling |
| `RunProtocol.Decide` | agents/agent_run_manager.py:1780-1956 | every way of closing an attempt writes one to three closing entries, never leaves the run running, and never forges a start, a progress entry, a resume or a recovery |
| `RunProtocol.LogsGrow` | storage/database.py:2633-2677 | whatever a worker does, the log of its run only grows at the end, by the entries of that action |
| `RunProtocol.CommandsGrow` | agents/agent_run_manager.py:411-456 | the same for cancel, kill, resume and recovery |
| `RunView.Projects` | agents/agent_run_manager.py:1558-1578 | each step of the whole system is, for each run, one move of that run alone or nothing |
| `RunView.Invariant` | agents/agent_run_manager.py:1538-1556 | an invariant of one run's moves holds of every run after every history |
| `RunLife.CloseDecides` | agents/agent_run_manager.py:1780-1817 | a worker that has seen a cancel closes as canceled for the reason it read; one that has not closes a success as succeeded; the stored usage is the reported or else the live one |
| `RunLife.FailureDecides` | agents/agent_run_manager.py:1818-1956 | without a cancel, a first breach pauses, a later one escalates, a transient error below the attempt limit queues a retry with its two log entries, at the limit it fails as exhausted, and any other error fails |
| `RunLife.CreatedRunFinishes` | agents/agent_run_manager.py:316-345 | a created run can be claimed, started, guarded, closed and released, from any state of the system, and ends succeeded after one attempt with this log |
| `RunLife.ResumedRunFinishes` | agents/agent_run_manager.py:609-646 | from every state, a failed or canceled run whose lease is free or expired can be resumed and run to success as a new one: flag, attempt count and usage are cleared |
| `RunLife.RecoveredRunFinishes` | agents/agent_run_manager.py:193-240 | so can a recovered run at any time, from its stored attempt count and usage |
| `RunLife.FlaggedRunIsClosed` | agents/agent_run_manager.py:1584-1621 | a queued run with its flag set is closed as canceled by the worker that picks it up, as killed if it was killed |
| `RunLife.RetriesRunOut` | agents/agent_run_manager.py:1901-1961 | a run that keeps failing with a transient error makes exactly the attempts left to it and then fails as exhausted, with this log |
| `RunStanding.EndedRunStays` | storage/database.py:2727-2785 | an ended run with nobody on it is never claimed or written again, whatever kill switches do |
| `RunStanding.StruckRunStays` | agents/agent_run_manager.py:517-574 | a queued run canceled by its user, or an active run killed, while no worker is about to write, stays canceled for that reason: no attempt starts and executing or guarded workers can only close it as canceled |
| `RunStanding.LeaseLostIff` | storage/database.py:2727-2810 | a lease is lost exactly by another claim, which meets it expired, a kill of the active run, a recovery, or the release by its holder |
| `RunStanding.RenewsIff` | storage/database.py:2811-2840 | a heartbeat succeeds exactly for the holder of an unexpired lease on a running run, and only moves its expiry |
| `RunStanding.ProgressNeedsLease` | agents/agent_run_manager.py:2523-2529 | in every history, a claim not past its guard writes progress only after a guard that it passes as holder of the unexpired lease of a running run |
| `RunStanding.WritesIff` | agents/agent_run_manager.py:2523-2529 | guard and append write a checkpoint if and only if the worker executes, holds that lease and stays within budget |
| `LeaseEras.ErasOfWork` | agents/agent_run_manager.py:2523-2529 | only a guarded append within budget adds a progress entry, under the writer's own token |
| `LeaseEras.LeaseErasHold` | agents/agent_run_manager.py:1562-1578 | in every interleaving, a token that writes progress after a newer token did never writes again |
| `LeaseEras.RevokedWritesAtMostOnce` | agents/agent_run_manager.py:2667-2690 | a revoked or replaced claim never holds the run again and adds at most one progress entry, none unless its guard had passed |
| `LeaseEras.RevokedWritesIff` | agents/agent_run_manager.py:2523-2529 | a revoked claim can still write in some continuation if and only if its worker is past the guard and within budget |
| `LeaseEras.TimelyErasAreSorted` | agents/agent_run_manager.py:2523-2529 | when no lease is lost between guard and append, all progress of an earlier claim precedes that of a later one |
| `LeaseEras.StragglerReachable` | agents/agent_run_manager.py:2523-2529 | a concrete history in which an older claim writes after a newer one |
| `Cancellation.MoveUnderCancel` | agents/agent_run_manager.py:1584-1621 | under a set cancel flag, attempts started plus workers that read the flag as clear never grow |
| `Cancellation.CancelBoundsAttempts` | agents/agent_run_manager.py:416-456 | until a resume, the flag stays set and at most as many attempts start as workers had read it as clear |
| `Cancellation.CancelIsFinal` | agents/agent_run_manager.py:1801-1817 | with no such worker, no attempt starts again and the run never ends succeeded or failed, through retries, kills and recoveries |
| `Cancellation.AttemptStartsIff` | agents/agent_run_manager.py:1584-1736 | an attempt can start after a cancel if and only if a worker had passed the check before it or the run is resumed |
| `Cancellation.FinalOutcomesEnd` | agents/agent_run_manager.py:1801-1874 | a closing worker that saw no cancel ends the run succeeded or failed if and only if it holds a success, a first budget breach, a transient error at the attempt limit or an error that is neither |
| `Cancellation.UncanceledEndIff` | agents/agent_run_manager.py:2004-2076 | a canceled run can still end succeeded or failed if and only if a worker past its check would end it so |
| `Cancellation.CancelCanBeOvertaken` | agents/agent_run_manager.py:2004-2006 | a concrete history in which a canceled run ends succeeded |
| `RunChains.ChainInvariant` | agents/agent_run_manager.py:1562-1736 | the invariant behind the next rows, over every history in which attempts of the run do not overlap, takeovers of running rows included |
| `RunChains.AttemptsStayWithinLimit` | agents/agent_run_manager.py:1901-1921 | when attempts do not overlap, attempts never exceed max attempts plus recoveries plus takeovers of an unfinished attempt since creation or the last resume, and a queued run is strictly below |
| `RunChains.ChainUsageCounts` | agents/agent_run_manager.py:2796-2813 | the running usage totals are the counts of calls that were finished, not cached and executed, and of those that failed, and a token high-water mark that is reached and never exceeded |
| `UsageLedger.RefusedIff` | agents/agent_run_manager.py:2796-2834 | while attempts do not overlap, none was recovered and no checkpoint was refused, the next checkpoint is refused if and only if with it some reported token total, or the executed or failed calls of the logged chain of attempts, exceed the budget |
| `RunChains.BudgetHoldsAcrossAttempts` | agents/agent_run_manager.py:1739-1764 | over all attempts of a chain together, leaving out attempts that were taken over, persisted calls, failed calls and token totals stay within the budget |
| `RunChains.GuardrailPausesOnce` | agents/agent_run_manager.py:1834-1874 | over a run's whole life without overlapping attempts, the first breach pauses it and every later one escalates |
| `Takeover.TakeoversReachable` | agents/agent_run_manager.py:1562-1569 | for every n a run limited to one attempt and one call makes n + 1 of each by n takeovers, with nothing overlapping and nothing recovered, so the bound is attained and usage is forgotten |
| `Guardrail.BreachKeepsGuardrailIff` | agents/agent_run_manager.py:1832-1874 | a breach keeps pause-once-then-escalate if and only if the closing worker's view of earlier breaches is up to date |
| `Guardrail.GuardrailHolds` | agents/agent_run_manager.py:2700-2714 | in every interleaving whose closes are up to date in that sense, a run pauses once, first, and then only escalates |
| `Guardrail.TwoPausesReachable` | agents/agent_run_manager.py:1795-1800 | a concrete history of overlapping attempts that pauses a run twice |
| `Guardrail.EscalatesIff` | agents/agent_run_manager.py:1832-1853 | a worker goes on to the kill switch of its scope if and only if it closes with a breach and knows of an earlier one |
| `AnyHistory.OnlyTransientFailuresRetry` | agents/agent_run_manager.py:1818-1830 | in every interleaving, each retry directly follows an error of a transient class or a lost lease |
| `AnyHistory.EveryClaimWithinBudget` | agents/agent_run_manager.py:1746-1764 | in every interleaving, the progress persisted under one claim is within the run's budget |
| `Handoff.TurnLosesIff` | agents/agent_run_manager.py:1562-1577 | short of a crash, a step leaves a queued run unattended if and only if it takes its last queue entry under a live lease |
| `Handoff.CarefulRunsAreAttended` | agents/agent_run_manager.py:1538-1556 | while that never happens, a queued run is always on the queue, about to be put there, or claimed |
| `Handoff.LostForGood` | agents/agent_run_manager.py:193-240 | an unattended run stays queued for ever unless it is canceled, killed or recovered |
| `Handoff.RecoveryFindsLostRun` | agents/agent_run_manager.py:193-240 | a restart finds a lost run: recovery puts it back on the queue and the next worker claims it, at any time |
| `Handoff.EntriesConserved` | agents/agent_run_manager.py:1538-1577 | each resume, recovery and retry makes exactly one queue entry, and each entry is picked once or dies with the worker that owed it |
| `Handoff.RetryCanBeLost` | agents/agent_run_manager.py:1958-1961 | a concrete history in which a retry is lost |
| `KillSwitch.KillReaches` | agents/agent_run_manager.py:495-513 | with no write in between, a run changes if and only if its status is included, it is not the excluded one, it has the user and agent asked for if any, and fewer than the limit, between 1 and 50000, of newer runs of any owner share its status |
| `KillSwitch.KilledIff` | agents/agent_run_manager.py:495-524 | whatever is written between the two listings and the transaction, a run changes if and only if it is still active and one of the listings had reached it |
| `KillSwitch.EscapesIff` | agents/agent_run_manager.py:497-498 | a switch over everything misses a run that stays active and in reach if and only if the run starts between the two listings |
| `KillSwitch.RunningRunKilledIff` | agents/agent_run_manager.py:518-524 | a switch over queued runs only cancels a running run if and only if the run was still queued when listed |
| `KillSwitch.EscalationKills` | agents/agent_run_manager.py:1963-1975 | whatever is written between the two listings and the transaction of a budget escalation, a run changes if and only if it is still active, is not the trigger, and one of the listings found it in the trigger's user and agent with fewer than 5000 newer runs of that listing's status; a blank user or agent widens the scope |
| `KillSwitch.EscalationKillsAll` | agents/agent_run_manager.py:1963-1975 | with at most 5000 runs in each listing, an escalation cancels a run that stays active if and only if it is in scope, is not the trigger and does not start between the listings |
| `KillSwitch.CollectTargets` | agents/agent_run_manager.py:497-512 | one listing pass adds the covered runs among the newest of that status that were not found before, in order |
| `KillSwitch.RunTable.CancelAll` | agents/agent_run_manager.py:517-574 | the transaction kills each target once, counts interrupted and dequeued runs and leaves all others as they were |
| `KillSwitch.RunTable.KillSwitchRuns` | agents/agent_run_manager.py:468-607 | a switch with neither status is refused and changes nothing; otherwise exactly the listed runs that are still active are canceled and lose their leases, and are counted by what they were |
| `Replay.SummarySnoc` | agents/agent_run_manager.py:711-744 | absorbing one event into an attempt's summary is summarising the longer list of events |
| `Replay.EventReads` | agents/agent_run_manager.py:668-700 | what replay makes of a checkpoint: stage, attempt from one on, status in lower case, and whether a tool really ran |
| `Replay.ReplayRun` | agents/agent_run_manager.py:664-744 | the single pass with its index returns the timeline and, per attempt in order of first appearance, the summary of that attempt's own events |
| `Replay.FilteredReplayIsLastMatches` | agents/agent_run_manager.py:833-871 | the chain of filters and the cut return the last events, up to the limit, that pass every filter that is set |
| `Percentile.PercentileMonotone` | agents/agent_run_manager.py:2899-2909 | over a sorted non-empty sample the percentile is monotone and between the extremes |
| `Percentile.PercentileAtRank` | agents/agent_run_manager.py:2899-2909 | the percentile falling on a rank is the value of that rank; 0 and 100 give the extremes |
| `Percentile.PercentileOfTwo` | agents/agent_run_manager.py:2899-2909 | between two values a percentile is the point on the line, clamped to 0 and 100; of none it is zero |
| `Percentile.MedianAndP95` | agents/agent_run_manager.py:2886-2897 | of 20n + 1 values the median is the middle one and p95 the one n places from the top |
| `Percentile.DistributionIsOrdered` | agents/agent_run_manager.py:2886-2897 | for every sample, min, median, p95 and max are ordered and not negative, cover the sample with negative values counted as zero, and the extremes occur in it |
| `Dispatch.ConservedStep` | storage/database.py:3498-3601 | every step conserves: runs made, plus triggers that may still make one, plus a row that is free and still can be taken, at most one plus the two exceptions |
| `Dispatch.RunsPerSlot` | automation/automation_scheduler.py:603-712 | with any number of schedulers and deletions at any time, a slot yields at most one run plus one per stale take-over and creation that raised after committing |
| `Dispatch.AtMostOneRunPerSlot` | automation/automation_scheduler.py:799-804 | without those two, at most one run, even when creations or later writes fail or the automation is deleted |
| `Dispatch.RegistersIff` | storage/database.py:3498-3567 | a registration succeeds if and only if its automation is stored and the row is missing, or has no run and is old enough for a scheduled trigger |
| `Dispatch.RecordedSlotIsFinal` | storage/database.py:3535-3567 | a slot whose run is on record, with no other trigger on it, makes no further run in any history, however old the row |
| `Dispatch.RecordFinishes` | automation/automation_scheduler.py:668-712 | a trigger alone on its slot finishes it so by recording its run |
| `Dispatch.RunsHaveOneRow` | storage/database.py:3569-3588 | in every history no two rows name the same run |
| `Dispatch.DeletionTakesRows` | storage/database.py:3685-3705 | deleting a stored automation loses it for good with all its rows and no others; deleting another does nothing |
| `Dispatch.RunsAfterDeletion` | storage/migrations.py:579-589 | once its automation is deleted, a slot gets no more runs than triggers were about to create one |
| `Dispatch.BoundAttained` | storage/database.py:3498-3567 | for all m and n there is a history with m take-overs, n creations that raised after committing and 1 + m + n runs of one slot, so the bound is attained |
| `Dispatch.DispatchKeyInjective` | automation/automation_scheduler.py:875-879 | two triggers share a key if and only if they share source, schedule type and slot, where a blank slot is the same as "unknown" |
| `AutomationHealth.Automation.constructor` | automation/automation_scheduler.py:106-185 | a new automation is enabled, stores the resolved policy and starts an empty history |
| `AutomationHealth.Automation.Pause` | automation/automation_scheduler.py:283-302 | keeps the row and inbox equal to what the history makes them, with the counter, level, enablement and notice guarantees, after one more event; afterwards no scheduler may claim the automation at any time |
| `AutomationHealth.Automation.Resume` | automation/automation_scheduler.py:304-337 | the same for a resume; afterwards schedulers may claim it exactly from the given time on |
| `AutomationHealth.Automation.Update` | automation/automation_scheduler.py:187-263 | the same for an update, which replaces the policy only if one is given and then by its resolution; afterwards schedulers may claim it exactly if it is enabled and from the given time on |
| `AutomationHealth.Automation.HandOut` | automation/automation_scheduler.py:339-345 | the same when a trigger is handed the row, by a claim or by a manual run without a lease |
| `AutomationHealth.Automation.EffectiveSlo` | automation/automation_scheduler.py:1011-1026 | a trigger enforces the stored policy whatever the current defaults are |
| `AutomationHealth.Automation.RecordError` | automation/automation_scheduler.py:773-842 | the error write, computed from the row the trigger was handed, and its notice are those of the history's error event |
| `AutomationHealth.Automation.Trigger` | automation/automation_scheduler.py:538-858 | the closing write of each of the five outcomes keeps the history invariant, whatever was written since the trigger was handed its row |
| `AutomationHealth.ClaimableAfter` | storage/database.py:3419-3479 | exactly when a scheduler may claim the automation after each kind of event: after an error, when its trigger was handed it enabled and below the disable threshold, and retry interval, thirty seconds, backoff and open circuit have passed |
| `AutomationHealth.PauseHolds` | automation/automation_scheduler.py:283-302 | after a pause no scheduler claims the automation at any time, through any events but a resume or an error of a trigger handed it enabled and below its disable threshold |
| `AutomationHealth.NoticeIff` | automation/automation_scheduler.py:830-842 | an error sends a notice, with the level and count it stores, if and only if the level changes to one above calm or the automation is disabled |
| `AutomationHealth.HealthIsTheStreak` | automation/automation_scheduler.py:713-727 | with any number of triggers in flight: failures count the errors since the last success, update or resume unless one was handed another count, and level and enablement follow the thresholds unless the last error did not fit the policy it met |
| `AutomationHealth.NoticesAreBounded` | automation/automation_scheduler.py:830-842 | in every history a streak sends at most three notices, three more per outdated error and one more per error under a changed policy |
| `AutomationHealth.AtMostThreeNotices` | automation/automation_scheduler.py:984-995 | without outdated errors a failing streak of any length sends at most three escalation notices |
| `AutomationHealth.ErrorKeepsCountIff` | automation/automation_scheduler.py:775 | a closing write keeps failures equal to the errors of the streak if and only if an error's trigger was handed that count |
| `AutomationHealth.EndKeepsHealthIff` | automation/automation_scheduler.py:776-818 | a closing write keeps the row healthy if and only if an error's count passes the same thresholds of the stored policy as of the policy the trigger enforces |
| `AutomationHealth.SamePolicyFits` | automation/automation_scheduler.py:776-781 | which it always does while the policy is unchanged |
| `AutomationHealth.FailureOverwritesPause` | automation/automation_scheduler.py:818 | a pause during a failing trigger is undone if and only if the trigger had been handed the row enabled and below the disable threshold |
| `AutomationHealth.QuietAfterError` | storage/database.py:3419-3479 | after an error no scheduler claims the automation before backoff and open circuit have passed, through all that happens up to the next error, success, resume or update; nor before the retry floor, up to any closing write, resume or update |
| `AutomationOverlap.OverlapMiscounts` | automation/automation_scheduler.py:339-345 | for every n, n overlapping failing triggers count as one error and each send a warning |
| `AutomationOverlap.UpdateLeavesUnhealthy` | automation/automation_scheduler.py:187-263 | the strict profile installed under a trigger that saw two failures leaves the automation enabled with three |
| `AutomationOverlap.NoticesAttained` | automation/automation_scheduler.py:830-842 | for every n a streak with n outdated errors can send 3 + 3n notices |
| `AutomationOverlap.RepolicedNoticesAttained` | automation/automation_scheduler.py:830-842 | for every n a streak with n errors under an outdated policy can send 3 + 4n notices |
| `WatchScan.ScanWatchChanges` | automation/automation_scheduler.py:927-982 | the scan returns the newest changed versions up to the limit, and the highest modification time seen |
| `WatchScan.NewestAreReported` | automation/automation_scheduler.py:973-974 | a version past the cursor that the limit cuts off is no newer than any reported one |
| `WatchScan.ReportedMembers` | automation/automation_scheduler.py:955-974 | the report holds only versions past the cursor, and as many of them as the limit allows |
| `WatchScan.DropStoresNothing` | automation/automation_scheduler.py:570-581 | a pass that ends without storing leaves the cursor alone and never stores later |
| `WatchScan.StoreLowersIff` | automation/automation_scheduler.py:975-982 | a store lowers the cursor if and only if the stored cursor has passed the one the pass was handed and every file it saw |
| `WatchScan.CursorGrows` | automation/automation_scheduler.py:570-581 | with any number of passes in flight: as long as no store lowers it, the cursor covers everything stored passes have seen |
| `WatchScan.UninterruptedIsRising` | automation/automation_scheduler.py:975-982 | when no store falls between a storing pass's read and its write, the cursor never falls, at any step of any history |
| `WatchScan.OneChancePerVersion` | automation/automation_scheduler.py:570-581 | while no store lowers the cursor, a version seen by a pass that stored is reported by no pass begun later, even if it was cut off or its trigger failed |
| `WatchScan.ReportedTwiceOnlyByOverlap` | automation/automation_scheduler.py:927-982 | while no store lowers the cursor, two passes that store can report the same version only if each began before the other had stored |
| `WatchScan.ReportedAtMostOnce` | automation/automation_scheduler.py:927-982 | in every history in which no store falls between a storing pass's read and its write, each version is reported by at most one pass that stores |
| `WatchScan.ReportedAgainIff` | automation/automation_scheduler.py:975-982 | looking again at the same files repeats a report if and only if the first pass did not store its cursor |
| `WatchScan.OverlapReportsTwice` | automation/automation_scheduler.py:339-345 | for every directory, two passes handed the same row report and store the same changes |
| `WatchScan.CursorFalls` | automation/automation_scheduler.py:339-345 | for every older and newer directory, a slow pass lowers the stored cursor and a version is reported and stored twice |
| `Schedule.AcceptedIsNormal` | automation/schedule.py:20-125 | every accepted schedule has its fields in range, its days unique and in week order, and the interval of its kind |
| `Schedule.AcceptedAsAsked` | automation/schedule.py:20-125 | a request is accepted if and only if some normal schedule of its kind has exactly the fields asked for and the defaults for the others, and the result is one |
| `Schedule.SplitJoins` | automation/schedule.py:58-59 | the parts of a comma-separated day list hold no comma and make the text again |
| `Schedule.RenormalizeIsIdentity` | automation/automation_scheduler.py:484-492 | normalising a stored schedule again gives the same schedule and interval |
| `NextRun.HourInWindow` | automation/schedule.py:155-165 | any k consecutive hours contain a firing one, even when k does not divide 24 |
| `NextRun.NextHourly` | automation/schedule.py:155-165 | the loop ends within k hours on the least matching instant strictly after now |
| `NextRun.Calendar` | automation/schedule.py:175-178 | weekdays follow each other from Monday as 0, and agree with two dates of the calendar |
| `NextRun.NextWeekly` | automation/schedule.py:167-195 | the day loop finds the least matching instant strictly after now within a week; its fallback is unreachable |
| `NextRun.ComputeNextRunAt` | automation/schedule.py:128-197 | for all four kinds the next run is after now and within the returned interval, and calendar kinds give the least due instant |
| `MissionPolicy.NormalizeSlo` | automation/mission_policy.py:148-185 | whatever is given, thresholds come out ordered and backoff bounds consistent |
| `MissionPolicy.NormalIsFixed` | automation/mission_policy.py:148-185 | a valid objective passes through unchanged under any fallback |
| `MissionPolicy.ProfileIsFixed` | automation/mission_policy.py:126-130 | normalising a normalised profile name changes nothing |
| `MissionPolicy.ResolvedIsValid` | automation/mission_policy.py:80-123 | resolution fails if and only if an explicit profile is unknown; otherwise the policy is valid |
| `MissionPolicy.KnownProfileIsItself` | automation/mission_policy.py:80-103 | a known profile, named explicitly or else by the policy, resolves without overrides to its own objective whatever the defaults |
| `MissionPolicy.OtherwiseDefaults` | automation/mission_policy.py:80-103 | an unknown name in the policy, or none, leaves the objective of the defaults |
| `MissionPolicy.NothingMeansBalanced` | automation/mission_policy.py:80-103 | with nothing given at all the policy is the balanced one |
| `MissionPolicy.DefaultsKept` | automation/mission_policy.py:133-146 | defaults keep a valid objective as given; without one they are those of their profile, or balanced |
| `MissionPolicy.OverridesAreOneLevel` | automation/mission_policy.py:104-120 | keys of an objective dictionary count and those beside it do not; without one those at top level do |
| `MissionPolicy.StoredPolicyIsFixed` | automation/automation_scheduler.py:1011-1026 | a stored resolved policy is read back unchanged under any defaults |
| `MissionPolicy.ResolvedIsFixedPoint` | automation/mission_policy.py:80-123 | resolving the outcome of a resolution again, under any later defaults, changes nothing |
| `MissionPolicy.OverridesAreExact` | automation/mission_policy.py:104-120 | overrides take effect exactly as given if and only if together with the base they are consistent |
| `MissionPolicy.BackoffWithinPolicy` | automation/automation_scheduler.py:860-863 | backoff is monotone in the failures and stays within base and maximum |
| `MissionPolicy.BackoffDoubles` | automation/automation_scheduler.py:860-863 | the first backoff is the base and each further one twice the one before, up to the maximum |
| `MissionPolicy.BackoffReachesMaximum` | automation/automation_scheduler.py:860-863 | after enough failures the backoff is exactly the maximum |
| `Text.StripIs` | memory/memory_manager.py:770 | stripping takes away the space at both ends and nothing else |
| `Text.LetterCase` | memory/memory_manager.py:770 | the 26 letters change case by 32 places, and nothing else does |
| `Memory.BestIsBest` | memory/memory_manager.py:792-810 | the head of the ranking beats every other fact in the tuple order of rank keys |
| `Memory.BestIsUnique` | memory/memory_manager.py:792-799 | among facts with distinct ids there is one best |
| `Memory.GroupKeyIff` | memory/memory_manager.py:767-780 | facts with a key compete exactly with those of the same key up to case and outer space, facts without one by fingerprint, else by the first 120 characters of the text, else with nobody |
| `Memory.ValueKeyIff` | memory/memory_manager.py:782-790 | facts have the same value if and only if both store the same one up to case and outer space, or neither does and the texts agree on 160 characters |
| `Memory.NullKeyIsAWord` | memory/memory_manager.py:770-772 | a null key reads as the word "none", and a missing one as blank |
| `Memory.RankRules` | memory/memory_manager.py:792-810 | at equal age confidence weighs eleven to five against importance, with ties to the surer and then the later fact; of facts alike in both the newer wins |
| `Memory.RecencyAhead` | memory/memory_manager.py:802-810 | a fact dated in the future counts as new |
| `Supersession.RetireKeepsGrounded` | storage/database.py:437-447 | retiring a fact in favour of an active one keeps every fact leading to an active one, so there are no cycles |
| `Supersession.AddKeepsGrounded` | storage/database.py:224-268 | so does adding an active fact |
| `Supersession.RetireKeepsGroundedIff` | storage/database.py:437-447 | retiring a fact in favour of any stored one keeps the graph grounded if and only if that one leads to an active fact without passing the retired one |
| `Grouping.GroupBy` | memory/memory_manager.py:413-416 | the dictionary of lists holds, for each key in order of first appearance, the facts with that key in order |
| `Grouping.SurplusOfAll` | memory/memory_manager.py:418-421 | the groups together hold, beyond one fact each, all facts minus the number of groups |
| `Tournament.TwoStagesAgree` | memory/memory_manager.py:431-469 | the best of the value winners is the best of the whole group |
| `Tournament.WinnersSettleGroup` | memory/memory_manager.py:464-491 | the tournament among value winners on top of the value tournaments leaves each fact where the group's definition puts it |
| `Consolidation.FactStore.Deactivate` | storage/database.py:437-447 | a fact is retired in favour of an active one, recorded, and the graph stays grounded |
| `Consolidation.FactStore.RetireLosers` | memory/memory_manager.py:439-462 | all losers and nothing else point to the winner |
| `Consolidation.FactStore.Settle` | memory/memory_manager.py:432-462 | ranks the rows, keeps the best, retires the rest in its favour |
| `Consolidation.FactStore.SettleValue` | memory/memory_manager.py:432-462 | one more value is settled: its best fact joins the winners and its other facts are retired and recorded |
| `Consolidation.FactStore.SettleValues` | memory/memory_manager.py:427-462 | every value keeps its best fact; the redundant count is facts minus values |
| `Consolidation.FactStore.ConsolidateGroup` | memory/memory_manager.py:426-491 | each fact of the group ends superseded by its value's best or the group's best, and deactivations are facts minus one |
| `Consolidation.FactStore.ConsolidateIfCrowded` | memory/memory_manager.py:423-425 | a group of one is skipped, which is what consolidating it would come to |
| `Consolidation.FactStore.ConsolidateUserMemory` | memory/memory_manager.py:398-491 | the store after all groups, with deactivated = scanned minus groups = conflicts recorded, crowded groups and redundant values counted |
| `Consolidation.FactStore.UpsertFact` | memory/memory_manager.py:655-742 | the store, answer and conflict after storing one fact, in all five branches, with the graph grounded |
| `ConsolidationLaws.OneActivePerGroup` | memory/memory_manager.py:413-491 | a scanned fact stays active if and only if it has the highest rank of its whole group, and that one stays |
| `ConsolidationLaws.WhereAFactEnds` | memory/memory_manager.py:418-491 | a listed fact ends retired for the best of its competitors with its own value, or if it is that one for the best of all its competitors, or as it was if it is that one too; who competes is stated on keys, fingerprints and texts |
| `ConsolidationLaws.KeysStayApart` | memory/memory_manager.py:413-421 | a listed fact that shares its key with no other listed one stays as it was, and every retirement joins facts of the same key |
| `ConsolidationLaws.RetiredClimbToTheWinner` | memory/memory_manager.py:439-491 | a retired fact reaches its group's winner in one or two hops, each to a fact of the group with strictly higher rank |
| `ConsolidationLaws.UnscannedStay` | memory/memory_manager.py:405-411 | facts that were not scanned are untouched |
| `ConsolidationLaws.SecondPassIsQuiet` | memory/memory_manager.py:423-425 | a second pass over facts the first one scanned deactivates nothing, whatever the clock says by then |
| `ConsolidationLaws.NullKeysCompete` | memory/memory_manager.py:767-780 | of two scanned facts stored without a key at most one stays active, whatever they say |
| `ConsolidationLaws.CrossingPassesLoop` | memory/memory_manager.py:802-810 | two passes that listed the same two facts just before and at the crossing of their ranks, however close together, retire each in favour of the other, a cycle |
| `MemoryWriters.PassAloneConsolidates` | memory/memory_manager.py:418-491 | the retirements a pass decides on when it lists, written alone in any order, consolidate the listed facts |
| `MemoryWriters.WriteShortensPlan` | memory/memory_manager.py:439-491 | each write takes one retirement off the plan of its pass |
| `MemoryWriters.StaysGroundedIff` | storage/database.py:437-447 | with any passes and upserts interleaved, a history stays grounded if and only if each retirement is for a fact that at that moment leads to an active one without passing the retired one |
| `MemoryWriters.WritersInStepStayGrounded` | memory/memory_manager.py:398-491 | any number of overlapping passes and upserts, stopping anywhere, keep every fact leading to an active one when all passes rank alike, as at one clock, and each upsert adds a fact that outranks the one it replaces |
| `WriterTurns.WritersInTurnStayGrounded` | memory/memory_manager.py:398-491 | so do passes at any clocks and any number of upserts when passes take turns and none lists between an upsert's add and its retirement |
| `WriterTurns.MixedWritersLoop` | memory/memory_manager.py:689-731 | whenever a pass ranks a holder above the fact about to replace it, some history of that upsert and that pass ends in a cycle |
| `WriterTurns.SlightlyLessSureIsContested` | memory/memory_manager.py:698-731 | which is so at every clock for another value, less sure by at most 0.05, that is not much newer |
| `WriterTurns.SurerOutranks` | memory/memory_manager.py:792-810 | a candidate at least as sure outranks, at every clock, an older holder that is no more important |
| `Upserts.LatestFactByKey` | memory/memory_manager.py:744-755 | the loop finds the newest listed fact with the key, or there is none |
| `Upserts.ValueIsRead` | memory/memory_manager.py:757-765 | a fact without a stored value is read off its text: what follows the first equals sign, else all of it, else nothing |
| `Upserts.StoredIff` | memory/memory_manager.py:673-742 | a candidate is stored if and only if there is no holder, it is surer of the same value, or it has another value and is not less sure by more than 0.05 |
| `Upserts.StoredFactIsFound` | memory/memory_manager.py:734-755 | what is stored is found again: the next lookup of its key gives the new fact with the candidate's value |
| `Upserts.SecondUpsertIsQuiet` | memory/memory_manager.py:676-680 | storing the same candidate twice stores it once |
| `Upserts.UniqueHolderIff` | memory/memory_manager.py:669-671 | whatever the store has become since the lookup, the write keeps the active holder of its key unique if and only if it writes nothing or meets no active holder besides the one found |
| `Upserts.OverlookedIsHidden` | memory/memory_manager.py:744-755 | while the page is current, there is such another holder if and only if one is hidden behind the page |
| `Upserts.HiddenIsOld` | storage/database.py:327-356 | a holder is hidden only behind a full page of newer active facts |
| `Upserts.SecondHolderReachable` | memory/memory_manager.py:744-750 | behind 200 newer facts the only holder of a key is missed and the key gets a second one |
| `Upserts.AnswerIsSure` | memory/memory_manager.py:678-731 | the answered fact is at least as sure as the candidate and less sure than the one found by 0.05 at most, and it is active unless a kept fact was retired since the lookup |
| `UpsertOverlap.StepCounts` | memory/memory_manager.py:669-742 | with any number of upserts in flight, a step leaves one more lasting holder exactly when it adds a fact without a lasting one to replace, or an upsert dies before retiring a holder that nobody else retires; otherwise the number stays |
| `UpsertOverlap.HoldersAfterUpserts` | memory/memory_manager.py:655-742 | in every interleaving of upserts of any keys, at rest, a key has as many active holders as before plus the steps that missed, and at most one if and only if that sum is at most one |
| `UpsertOverlap.OverlapDuplicatesHolder` | memory/memory_manager.py:669-742 | for every store, two upserts that find the same holder before either writes, neither yielding to it, leave both their facts active |
| `UpsertOverlap.UpsertsStayGrounded` | storage/database.py:437-447 | however upserts overlap and wherever they die, retired facts point to newer ones and every fact leads to an active one |
| `Sessions.TableIsLifecycle` | flow/session_manager.py:19-27 | a state history obeys the transition table if and only if it is created, optional listening, planning/acting/reviewing without immediate repeats, optional closed |
| `Sessions.StatesHaveNames` | flow/session_manager.py:67-98 | a state is asked for by its name up to case and outer space, a blank start state means created, and the state before creation cannot be asked for |
| `Sessions.ChannelsAreNamed` | flow/session_manager.py:342-353 | a channel list is refused exactly for an unknown name and otherwise stands for the channels it names, or for text |
| `Sessions.TransitMeans` | flow/session_manager.py:262-327 | a transition moves the session, adds one line to its history and touches nothing but times and counters |
| `Sessions.ActiveMeans` | flow/session_manager.py:181-222 | an event counts for its channel alone and makes the session recent |
| `Sessions.StoredSessionsFollowLifecycle` | flow/session_manager.py:262-334 | every stored session has lived a prefix of that lifecycle and only its last state can be closed |
| `Sessions.TransitKeepsConsistent` | flow/session_manager.py:262-334 | a transition keeps the history linked and events = transitions + channel events + 1 |
| `Sessions.BegunIsConsistent` | flow/session_manager.py:99-130 | so does starting a session, which ends in the requested state with the given channels, no activity and the history of its one or two transitions |
| `Sessions.SessionManager.constructor` | flow/session_manager.py:33-42 | an empty manager with a capacity of at least one |
| `Sessions.SessionManager.EvictClosedIfNeeded` | flow/session_manager.py:355-368 | only when full, and only a least recently updated closed session, is dropped |
| `Sessions.SessionManager.StartSession` | flow/session_manager.py:44-130 | succeeds if and only if the input is valid and there is room or a closed session; a refused start changes nothing |
| `Sessions.SessionManager.TransitionSession` | flow/session_manager.py:132-158 | succeeds if and only if the session exists and the table allows the move; changes that session only |
| `Sessions.SessionManager.RecordActivity` | flow/session_manager.py:160-222 | succeeds if and only if the event is named and the session is open with that channel; changes that session only |

## Left out

- HTTP routers, signing, owner checks, telemetry events, explainability and audit text: formatting and delegation with easy properties.
- Issue records, artifacts and tool-call caches of a run, and the resume state rebuilt from them: they follow the checkpoints and do not decide statuses.
- The task executor: any sequence of payloads, results and errors; it is assumed not to write the guardrail's own stage names as progress.
- Duration budgets: the remaining-time checks are the failures a worker may raise before or during an attempt; total durations are not modelled.
- Threads and sleeping: steps interleave in any order. Claims are possible at any time in the run protocol; `Handoff` adds the queue for one run of a started manager.
- Crash recovery writes the row and its note in two calls; the model makes them one step.
- Timestamps, identifiers, jitter and rounding: integers or reals, fresh tokens and ids, no jitter.
- Daylight saving and the time-zone database: one constant offset per call.
- NextRun.NextHourly: works on local time with that constant offset.
- Strings: stripping, lower and upper case are modelled for ASCII only.
- Ranking of facts reads one clock per pass; creation times are compared as numbers, and unreadable ones are not modelled.
- Profile preferences, their decay and working and episodic memory: the decay needs powers of one half.
- Consolidation.FactStore.UpsertFact: one upsert at a time; `UpsertOverlap` covers overlapping ones. Vector-store entries and the values quoted in conflict records are not modelled.
- UpsertOverlap.HoldersAfterUpserts: counts holders under upserts only; consolidations in between are not steps.
- MemoryWriters.WritersInStepStayGrounded: entries added to the memory directly, without an upsert, are not steps.
- MissionPolicy.BackoffWithinPolicy: over reals; the source converts 2 to the power of failures minus one to a float, which overflows from the 1025th consecutive failure on, inside the error handler, so that no error is written. Manual triggers, which a disabled automation still accepts, can get there.
- AutomationHealth.Automation.RecordError: the same overflow is not modelled.
- WatchScan.CursorGrows: and the other histories of that module lie between two schedule edits; an edit sets a new cursor and is not one of the steps.
- AutomationHealth.Automation.Update: reads and writes in one step; what it read earlier decides only whether the next run time is written.
- Consolidation.FactStore.ConsolidateUserMemory: one pass at a time; `MemoryWriters` covers overlapping writers.
- The supervisor, agent factory, controller, model providers and evaluation suites: not part of this model.
