# Verified model of the milestone workflow

Syntra Build drives one milestone from an accepted task to a verified merge through a handful of
durable protocols over a database, a Git workspace and a hosting provider.  This project models
those protocols in Dafny and proves what each of them is for.  Nothing here was executed: the model
is checked by Dafny's verifier alone (`dafny verify dfyconfig.toml`).

Each protocol comes in two forms that are proved to agree.

- A *transition system*: one step for each transaction, provider call or process, with crashes,
  replays, other workers and late or lost effects as steps of their own.  Theorems are about
  `IsRun(run, acts)`, every finite run of it.
- *Classes and methods* in the form of the program, with its loops, early returns and in-place
  updates.  In `GatekeeperService`, `MergeExecutor`, `WorkspaceServices`, `CodingService` and
  `Lifecycle` other parties act between any two of their steps (`Interfere`), and their invariant
  says that what happened so far is a run of the transition system, so every theorem applies;
  and where nothing interferes their outcome is stated exactly.
  The other classes are proved against specification functions about which the theorems are.

| file | what it holds |
|---|---|
| `MilestoneMachine` | the milestone table with BLOCKED and resume |
| `MergePolicy` | the merge guards: evaluation, execution policy, freshness of evidence |
| `MergeSaga`, `MergeSafety`, `MergeTheorems` | prepare, execute, verify and recover as steps; at most one attempt and one PUT; completion |
| `MergeSerial`, `MergeRace`, `MergeHistory` | when COMPLETE and MERGED agree, when not, and what every PUT was preceded by |
| `GatekeeperService`, `MergeExecutor` | the Gatekeeper, the PR_MERGE executor and merge recovery as programs |
| `CiPolicy`, `CiMonitor`, `CiBounds` | CI reconciliation, its budgets and deadlines |
| `CodingLoop`, `CodingBounds`, `CodingOwner`, `CodingExact` | first implementation, both rework routes and lost jobs under one Codex budget, and exactly when it is kept |
| `CodingService` | the coding loop as a program |
| `Custody`, `CustodyHistory` | commit and push, from accepted diff to remote branch, and exactly when a record is true |
| `WorkspaceServices` | the commit and push executors as programs |
| `PullRequests` | one pull request under ambiguous creates |
| `ChangeValidation`, `SecurityLog` | validation and its mirror in the security events |
| `SourceLinks`, `AclUpdate` | the worktree script's symlink walk and ACL edits |
| `FenceScanner` | the Markdown scanner for CI profiles |
| `JobRetries`, `Lifecycle` | the job machine with retries; the order of milestones |
| `Wrappers` | `Option` and `Result` |

## What the models assume

- Transactions are atomic, repositories compare and set on the expected state and write history in
  the same transaction, and unique indexes hold.
- The reads of one policy check before a merge are taken at one moment; so are a scheduler tick's
  look at who owns CODING and its enqueue, and a startup recovery of one job.
- Identity columns (which pull request belongs to which milestone, project and repository) do not
  change once written.
- The provider applies a merge PUT at most once for each time it is sent, at any later time or
  never, only at the head it names; a merged pull request stays merged at its head.  Creates of
  pull requests are applied before the call returns or not at all, and nobody else opens pull
  requests for the branch.
- Nobody but the trusted Git commands touches the index between its check and the commit; work
  tree, head, remote and milestone may change between any two Git processes.
- One worker reconciles the CI of a pull request; head, milestone and project may change meanwhile.
  Polling delays and the grace period are positive.
- Hashes of diffs are injective: a hash stands for the diff.

## Four places where the code does not do what one might expect

- COMPLETE and MERGED can disagree for good when two workers hold the same attempt: `verify` marks
  the attempt only while it is REQUESTED but completes the milestone regardless.
  `MergeRace.TwoWorkersCanDisagree` gives such a run, `MergeTheorems.ExactRuns` the exact
  condition, `MergeSerial.SerialRunsAreExact` the case of one worker for each attempt.
- A commit that nobody accepted can reach PR_CREATING when HEAD moves while the trusted commit is
  made: HEAD is read for the parent, then the commit is made, then HEAD is read again for the
  commit (`src/syntra_build/infrastructure/git_workspace.py:226-236`), and every later check only
  compares that reading with itself.  `CustodyHistory.MovedHeadBreaksTheChain` gives such a run;
  `CustodyHistory.RecordIsTrueIff` and `RecordIsTrueIffHeadKept` the exact condition.
- The Codex cycle limit can be exceeded: the check counts processes, not the workers already past
  it, and two workers are let in together when a job that moved its milestone on was not harvested
  (`src/syntra_build/application/scheduler/core.py:378-462`) and recovery copied it.
  `CodingOwner.LateHarvestOverspends` gives such a run; `CodingExact.OrderlyStepKeepsOwnerIff` and
  `OneOwnerIff` say exactly which steps lead there, `CodingExact.CanExceedIff` and
  `BudgetIsSafeIff` exactly when the budget is at risk.
- The retry policy may sample a delay of zero, and the job repository refuses a retry that is not
  in the future: `JobRetries.RetryIsRefusedIff`.

## Model

| member | source | states |
|---|---|---|
| `MergeTheorems.OneAttemptPerMilestone` | `src/syntra_build/application/gatekeeper.py:403-462` | Over every run, with crashes between any two steps, replays, concurrent workers, startup recovery and late, lost or lying provider replies, no two merge attempts are ever for the same milestone, and at most one attempt in the database holds the global slot. |
| `MergeTheorems.OnePutPerMilestone` | `src/syntra_build/application/gatekeeper.py:741-771` | Over every such run, no two merge PUTs are for the same milestone, every PUT names its own attempt's pull request and head, and nothing is in flight at the provider that was not sent. |
| `MergeTheorems.CompletionIsProven` | `src/syntra_build/application/gatekeeper.py:856-914` | In every reachable state a COMPLETE milestone has an attempt whose pull request the provider holds as merged at exactly the attempt's head, and a milestone whose attempt is marked MERGED is COMPLETE; a PUT reply alone completes nothing. |
| `MergeTheorems.ExactRuns` | `src/syntra_build/application/gatekeeper.py:882-914` | "COMPLETE exactly when MERGED" holds in a reachable state if and only if no earlier step was a `verify` commit that found its attempt no longer REQUESTED while saving the pull request and the transition succeed. |
| `MergeTheorems.StepExact` | `src/syntra_build/application/gatekeeper.py:882-914` | From an invariant state, a step keeps COMPLETE and MERGED in agreement exactly when they agreed before and the step is not such a commit; agreement once lost is never regained. |
| `MergeSerial.SerialRunsAreExact` | `src/syntra_build/application/gatekeeper.py:856-1014` | With one live worker for each attempt, and crashes anywhere, COMPLETE and MERGED agree in every reachable state. |
| `MergeRace.TwoWorkersCanDisagree` | `src/syntra_build/application/gatekeeper.py:823-914` | With two workers on one attempt they can disagree: a concrete run of workers 0 and 1 alone, from any eligible request, ends with a COMPLETE milestone whose attempt stays UNKNOWN. |
| `MergeTheorems.Reachable` | `src/syntra_build/application/gatekeeper.py:384-1014` | The inductive invariant of the merge saga holds in every reachable state. |
| `MergeTheorems.StepKeepsInvariant` | `src/syntra_build/application/gatekeeper.py:384-1014` | Every step of every worker and of the provider keeps that invariant: attempts distinct, one slot, PUT bookkeeping, what each suspended worker learnt, outcomes proven. |
| `MergeTheorems.KeepsPuts` | `src/syntra_build/application/gatekeeper.py:741-771` | No step breaks the PUT bookkeeping: sent PUTs are for distinct marked attempts, and a worker past the marker is the only one for its attempt. |
| `MergeTheorems.StepStatus` | `src/syntra_build/application/gatekeeper.py:626-707` | What any step may do to an attempt's status: give up, end before the PUT with the milestone blocked, or become MERGED together with MERGE_VERIFY to COMPLETE. |
| `MergeTheorems.KeepsSlot` | `src/syntra_build/infrastructure/persistence/migrations.py:1145-1152` | The single active-merge slot survives every step that respects the status moves. |
| `MergeTheorems.StepArrives` | `src/syntra_build/application/gatekeeper.py:709-1014` | Whatever a worker has learnt when it reaches a point in its code is true there, for all four operations. |
| `MergeTheorems.StepCompletes` | `src/syntra_build/application/gatekeeper.py:856-1014` | A step makes a milestone COMPLETE only with an attempt whose merge the provider shows at the attempt's head. |
| `MergeSafety.StepMoves` | `src/syntra_build/domain/milestone_state_machine.py:103-119` | Every milestone row changes only by table transitions, and the merge tail is never left, blocked or not, so a second intent cannot be prepared. |
| `MergeSafety.StepGrows` | `src/syntra_build/infrastructure/persistence/migrations.py:1148-1152` | Nothing is undone: attempts keep their identity and their marker, sent PUTs stay sent, and a merged pull request stays merged at its head. |
| `MergeSafety.StepAdds` | `src/syntra_build/application/gatekeeper.py:403-462` | A step adds at most one attempt, only with the slot free and the milestone moved from MERGE_READY to MERGING in the same transaction. |
| `MergeSafety.KeepsAttempts` | `src/syntra_build/application/gatekeeper.py:430-462` | Those three relations keep attempts distinct by milestone and each milestone with an attempt in its merge tail. |
| `MergeHistory.PutsWereRevalidated` | `src/syntra_build/application/gatekeeper.py:709-771` | Every PUT ever sent was preceded, in that order, by a moment at which every execution policy was clear with the attempt unmarked, and a moment at which the provider showed that pull request open at the attempt's head. |
| `MergeHistory.AttemptsWereEligible` | `src/syntra_build/application/gatekeeper.py:384-462` | Every attempt's request satisfied every evaluation guard at some earlier moment, on a provider answer seen before that. |
| `MergePolicy.EvaluatePersisted` | `src/syntra_build/application/gatekeeper.py:137-355` | The guards, appended one by one, all pass exactly when the declared meaning of "may merge" holds. |
| `MergePolicy.IdentityGuards` | `src/syntra_build/application/gatekeeper.py:164-214` | The identity guards pass exactly when project, milestone, pull request and repository belong together and the milestone is MERGE_READY. |
| `MergePolicy.LiveGuards` | `src/syntra_build/application/gatekeeper.py:216-244` | The live guards pass exactly when the provider shows this pull request open at the requested head. |
| `MergePolicy.EvidenceGuards` | `src/syntra_build/application/gatekeeper.py:246-330` | The evidence guards pass exactly when CI, review and human test are proven for the head, security is clear and every human gate is answered. |
| `MergePolicy.LatestReviewIsMaximum` | `src/syntra_build/application/architect_review.py:514-556` | The review consulted is the newest of the pull request by time and then position, if there is any. |
| `MergePolicy.EligibleMeansProvenHead` | `src/syntra_build/application/gatekeeper.py:137-355` | An eligible result implies a passing CI run, the newest review an unsuperseded APPROVE, and, if a human test was ever gated, a PASS that answers a resolved gate bound to this milestone, this pull request and a passing CI run, all at the one persisted and live head. |
| `MergePolicy.OtherHeadsNeverHelp` | `src/syntra_build/application/human_intervention.py:563-598` | Deleting all evidence for other heads leaves an eligible request eligible: stale evidence never authorises anything. |
| `MergePolicy.MovedHeadIsNotEligible` | `src/syntra_build/application/gatekeeper.py:137-355` | After the head moves to one no evidence names, no request for that pull request is eligible, for the old head or the new. |
| `MergePolicy.ExecutionPolicyFailure` | `src/syntra_build/application/gatekeeper.py:561-624` | The failure reported is the first in the source's order, and none is reported exactly when every check is clear. |
| `MergePolicy.Revalidate` | `src/syntra_build/application/gatekeeper.py:489-624` | A valid attempt context without policy failure is exactly the declared execution policy. |
| `MergePolicy.ExecutionRefinesEvaluation` | `src/syntra_build/application/gatekeeper.py:489-624` | For an attempt made from an eligible evaluation with stable identity columns, the execution policy passes if and only if every persisted guard of the evaluation holds again (MERGING in place of MERGE_READY) and every gate was answered by a validated response. |
| `GatekeeperService.Gatekeeper.Prepare` | `src/syntra_build/application/gatekeeper.py:384-473` | Interleaved with anyone else's steps, success means an attempt with exactly the eligible evaluation exists; no PUT is sent. Undisturbed, it succeeds exactly when every guard passes and the slot is free. |
| `GatekeeperService.Gatekeeper.Decide` | `src/syntra_build/application/gatekeeper.py:403-462` | The preparing transaction is one saga step: evaluate again on the fresh answer, then insert and move, or change nothing. |
| `GatekeeperService.Gatekeeper.Intend` | `src/syntra_build/application/gatekeeper.py:430-462` | Insert the attempt and enter MERGING together, or leave everything as it was. |
| `GatekeeperService.Gatekeeper.Execute` | `src/syntra_build/application/gatekeeper.py:709-821` | At most one PUT, none and a failure if the marker was already there, and MERGED is reported only with the milestone in MERGE_VERIFY; every step in between is a saga step. Undisturbed, an executable attempt has its merge adopted, its one PUT sent and answered, or is rejected, exactly by what policy and provider show. |
| `GatekeeperService.Gatekeeper.ReadContext` | `src/syntra_build/application/gatekeeper.py:489-624` | An attempt that may not be executed is left alone; otherwise the worker proceeds or rejects exactly as the policy says. |
| `GatekeeperService.Gatekeeper.LookBeforePut` | `src/syntra_build/application/gatekeeper.py:709-745` | One live look decides between adopting an existing merge, going on, and rejecting, and what it reports was so. |
| `GatekeeperService.Gatekeeper.MarkMutation` | `src/syntra_build/application/gatekeeper.py:741-751` | The write-ahead compare-and-set: passed exactly when the attempt is REQUESTED and unmarked, and then it is marked. |
| `GatekeeperService.Gatekeeper.SendMerge` | `src/syntra_build/application/gatekeeper.py:752-771` | The one place a PUT is sent, for the attempt's own pull request and head. |
| `GatekeeperService.Gatekeeper.ReconcileAmbiguous` | `src/syntra_build/application/gatekeeper.py:823-854` | Without a definite reply one look decides between MERGED, which was then observed, and UNKNOWN. |
| `GatekeeperService.Gatekeeper.Record` | `src/syntra_build/application/gatekeeper.py:772-821` | One transaction records the outcome and moves the milestone, or changes nothing. |
| `GatekeeperService.Gatekeeper.TerminalizeBeforePut` | `src/syntra_build/application/gatekeeper.py:626-667` | An attempt ended before its PUT is REJECTED with the milestone BLOCKED. |
| `GatekeeperService.Gatekeeper.AdvanceObservedMerge` | `src/syntra_build/application/gatekeeper.py:669-707` | A merge already there is adopted into MERGE_VERIFY without a PUT. |
| `GatekeeperService.Gatekeeper.Verify` | `src/syntra_build/application/gatekeeper.py:856-914` | Completes only after an independent observation of the merge; never sends a PUT. Undisturbed, it completes exactly an attempt that awaits it and whose merge is there. |
| `GatekeeperService.Gatekeeper.Complete` | `src/syntra_build/application/gatekeeper.py:889-914` | Pull request, attempt and milestone are saved in one transaction that is the corresponding saga step. |
| `GatekeeperService.Gatekeeper.Recover` | `src/syntra_build/application/gatekeeper.py:916-961` | Observes an interrupted merge, never sends a PUT, and reports completion only when the milestone is COMPLETE. Undisturbed, it completes exactly an attempt, given up or not, that awaits it and whose merge is there. |
| `GatekeeperService.Gatekeeper.ConfirmRecovery` | `src/syntra_build/application/gatekeeper.py:963-1014` | The second, independent observation of a recovery, and its completing transaction. |
| `GatekeeperService.Gatekeeper.Interfere` | `src/syntra_build/application/gatekeeper.py:384-1014` | Whatever other workers, the provider and the environment do between two steps, the worker keeps its place and what it remembers of its attempt. |
| `GatekeeperService.RunGrows` | `src/syntra_build/application/gatekeeper.py:384-1014` | Between any two moments of a run nothing durable is undone. |
| `GatekeeperService.StepLeavesOthers` | `src/syntra_build/application/gatekeeper.py:384-1014` | No step of one worker moves another. |
| `MergeExecutor.RunJob` | `src/syntra_build/application/m32_executors.py:1724-1865` | One PR_MERGE job sends at most one PUT, none at all once the milestone's mutation may have begun, and succeeds only on complete durable evidence, which means the provider holds the attempt's head as merged. Undisturbed, a request that is ready gets exactly one PUT. |
| `MergeExecutor.PreparedIsSendable` | `src/syntra_build/application/gatekeeper.py:430-624` | What an undisturbed preparation leaves passes the execution policy and shows an open pull request, if every gate was answered by a validated response. |
| `MergeExecutor.Route` | `src/syntra_build/application/m32_executors.py:1745-1865` | The same for the route the job takes by its milestone's state. |
| `MergeExecutor.MergeInterrupted` | `src/syntra_build/application/m32_executors.py:1815-1848` | A job that finds its milestone MERGING looks first and never sends a PUT for an attempt that has begun. |
| `MergeExecutor.VerifiedResult` | `src/syntra_build/application/m32_executors.py:1993-2033` | Success is reported only when attempt, pull request and milestone rows agree that the requested head merged. |
| `MergeExecutor.LatestAttempt` | `src/syntra_build/application/m32_executors.py:1756-1761` | The newest attempt of the milestone in order of insertion, if any. |
| `MergeExecutor.NewestIsOnly` | `src/syntra_build/application/m32_executors.py:1756-1761` | In a run that began clean a milestone has one attempt, so that by whatever order the newest is taken, by request time or by row, it is the same. |
| `MergeExecutor.StartedForOnly` | `src/syntra_build/application/m32_executors.py:1756-1761` | In a run that began clean, the attempt found for a milestone whose mutation began is the one that began. |
| `MergeExecutor.EvidenceIsObserved` | `src/syntra_build/application/m32_executors.py:1993-2033` | In an invariant state that evidence means the provider shows the merge. |
| `MergeExecutor.RecoverMerge` | `src/syntra_build/application/recovery.py:317-350` | Startup recovery sends no PUT; it reports either a COMPLETE milestone or a milestone and a project that are held. |
| `MergeExecutor.ReconcileMerge` | `src/syntra_build/application/recovery.py:143-186` | A recovery that raises is held as well: it ends COMPLETE, held, or, if neither may be blocked any more from the state it was found in, as it was. It never sends a PUT. |
| `MergeExecutor.BlockUncertain` | `src/syntra_build/application/recovery.py:755-803` | Milestone and project are blocked in one transaction, each unless it was found at rest: both are held afterwards, or nothing was touched, exactly as the two tables allow. No PUT is sent. |
| `MilestoneMachine.ValidateAgreesWithTable` | `src/syntra_build/domain/milestone_state_machine.py:169-202` | The validation accepts exactly what the table predicate allows, except the BLOCKED self-loop. |
| `MilestoneMachine.StepKeepsWellFormed` | `src/syntra_build/infrastructure/persistence/milestones.py:162-273` | A BLOCKED row always holds a resumable state, and leaving BLOCKED leads back to it or ends the milestone. |
| `MilestoneMachine.RunKeepsWellFormed` | `src/syntra_build/infrastructure/persistence/milestones.py:162-273` | The same in every state of a run. |
| `MilestoneMachine.MergeTailIsClosed` | `src/syntra_build/domain/milestone_state_machine.py:103-119` | MERGING, MERGE_VERIFY and the ends never lead back to MERGE_READY, not even through BLOCKED and resume. |
| `MilestoneMachine.ErasedRunIsUnblocked` | `src/syntra_build/domain/milestone_state_machine.py:25-122` | Erasing every detour X, BLOCKED, X from a run that always resumes gives a run of the table without BLOCKED, with the same ends. |
| `MilestoneMachine.UnblockedRunIsRun` | `src/syntra_build/domain/milestone_state_machine.py:25-122` | Conversely every such run is a run, and nothing of it is erased. |
| `MilestoneMachine.CompletionAlwaysResumes` | `src/syntra_build/domain/milestone_state_machine.py:169-202` | A run that ends COMPLETE never went through an abandoned block. |
| `MilestoneMachine.UnblockedCompletionStations` | `src/syntra_build/domain/milestone_state_machine.py:25-122` | Without detours, from PENDING to COMPLETE the run starts READY, PREPARING_TASK, ends MERGE_READY, MERGING, MERGE_VERIFY, and is MERGING once. |
| `MilestoneMachine.CompletedRunStations` | `src/syntra_build/domain/milestone_state_machine.py:25-122` | So with its detours erased every run from PENDING to COMPLETE visits those stations in that order. |
| `CiMonitor.CiMonitor.Reconcile` | `src/syntra_build/application/ci_monitor.py:81-222` | One reconciliation, with the head read before and after the evidence and others acting in between, turns the rows into exactly the specified ones. |
| `CiMonitor.CiMonitor.StartRerun` | `src/syntra_build/application/ci_monitor.py:395-434` | A rerun first writes its queued row, which spends one retry, then asks for each workflow run. |
| `CiMonitor.CiMonitor.Observe` | `src/syntra_build/application/ci_monitor.py:250-341` | An observation updates counters, grace deadline and next check as specified. |
| `CiMonitor.CiMonitor.Fail` | `src/syntra_build/application/ci_monitor.py:436-510` | A provider failure spends one retry and schedules the next check or none. |
| `CiMonitor.CiMonitor.Save` | `src/syntra_build/infrastructure/persistence/ci.py:49-228` | The repository accepts every row the monitor writes, and only the newest row of that head changes. |
| `CiMonitor.EvidenceIsAcceptable` | `src/syntra_build/infrastructure/persistence/ci.py:49-228` | The monitor never asks for a write the repository's own checks would refuse. |
| `CiBounds.UndecidedStreakBlocks` | `src/syntra_build/application/ci_monitor.py:250-341` | At one head with a clock that moves on, any mixture of undecided observations and provider failures ends BLOCKED within the observation limit plus the number of retry delays. |
| `CiBounds.UndecidedSpends` | `src/syntra_build/application/ci_monitor.py:250-341` | Each of those reconciliations blocks, or uses up exactly one unit of that budget. |
| `CiBounds.ObservationBlocksIff` | `src/syntra_build/application/ci_monitor.py:250-341` | An undecided observation blocks if and only if it is the last one allowed or the deadline has come. |
| `CiBounds.FailureBlocksIff` | `src/syntra_build/application/ci_monitor.py:436-510` | A provider failure blocks if and only if the retry schedule is used up; it spends one retry and no observation. |
| `CiBounds.NextCheckIsAhead` | `src/syntra_build/application/ci_polling.py:33-62` | Whatever is scheduled lies strictly after now and, for undecided observations, no later than the deadline. |
| `CiBounds.DeadlineIsFixed` | `src/syntra_build/application/ci_monitor.py:281-307` | The grace deadline, once set, never moves through undecided steps. |
| `CiBounds.ReconciliationSpends` | `src/syntra_build/application/ci_monitor.py:395-434` | No reconciliation gives a retry back, and one that reruns spends exactly one. |
| `CiBounds.RetryBudgetIsShared` | `src/syntra_build/application/ci_monitor.py:395-510` | Over any sequence of reconciliations at a head, disturbed in any way, reruns and rescheduled provider failures together never exceed the number of retry delays. |
| `CiBounds.MovedHeadDecidesNothing` | `src/syntra_build/application/ci_monitor.py:200-248` | A reconciliation whose head moved before, during or after the evidence moves no milestone and starts no rerun. |
| `CiBounds.EvidenceDecides` | `src/syntra_build/application/ci_monitor.py:545-592` | At a steady head the milestone is reviewed exactly on a pass, reworked exactly on a failure of the code, blocked exactly when nothing is decided and nothing more scheduled, and waits otherwise. |
| `CiBounds.PassIsSeen` | `src/syntra_build/application/ci_monitor.py:81-222` | A pass is recorded only for a non-empty set of checks, each completed and passed, seen at that head by that reconciliation. |
| `CiBounds.TerminalEvidenceStays` | `src/syntra_build/application/ci_monitor.py:113-162` | Terminal CI evidence is never changed or removed. |
| `CiPolicy.PassesOnlyOnProof` | `src/syntra_build/application/ci_policy.py:18-33` | The required-check policy passes exactly on a non-empty set of completed passing checks, and fails exactly when all completed and some failed. |
| `SourceLinks.VerifySourceLink` | `scripts/host/syntra-codex-acl.py:222-260` | The resolver loop terminates and accepts a name if and only if pathname resolution of it, dangling tails included, never leaves the root and follows at most 40 links. |
| `SourceLinks.AcceptedNamesNeverLeave` | `scripts/host/syntra-codex-acl.py:222-260` | For an accepted name every state that resolution passes through is inside the root, and resolution ends. |
| `SourceLinks.DanglingTailStays` | `scripts/host/syntra-codex-acl.py:237-244` | The lexical look at what follows a missing name accepts exactly the tails that stay below the root. |
| `SourceLinks.Reenter` | `scripts/host/syntra-codex-acl.py:245-253` | Following an absolute link into the root is one link step and the way down from the top. |
| `SourceLinks.FollowIsContained` | `scripts/host/syntra-codex-acl.py:222-260` | Every state of resolution from an inside start that does not leave is inside, or is still descending to the root. |
| `SourceLinks.Unsafe` | `scripts/host/syntra-codex-acl.py:222-260` | Wherever the loop refuses, resolution is indeed unsafe. |
| `AclUpdate.AclEditor.Update` | `scripts/host/syntra-codex-acl.py:130-170` | One operation edits access and default list exactly as specified, and both stay lists the kernel accepts. |
| `AclUpdate.ComputeMask` | `scripts/host/syntra-codex-acl.py:164-168` | The accumulated mask is exactly the union of the group-class entries. |
| `AclUpdate.EditedIsValid` | `scripts/host/syntra-codex-acl.py:130-170` | Every list the script writes is one the kernel accepts. |
| `AclUpdate.GrantHidesNothing` | `scripts/host/syntra-codex-acl.py:130-170` | After a grant the mask hides nothing of any group-class entry. |
| `AclUpdate.GrantIsExact` | `scripts/host/syntra-codex-acl.py:130-170` | After a grant the worker may do exactly what was granted, if and only if the file is not its own or its owner entry says just that. |
| `AclUpdate.HandoffStopsWriting` | `scripts/host/syntra-codex-acl.py:130-170` | After a handoff every process the group class decides for is refused write. |
| `AclUpdate.HandoffLetsControlRead` | `scripts/host/syntra-codex-acl.py:130-170` | After a handoff the control account may read, and enter a directory, as owner or not. |
| `AclUpdate.RevokeRemoves` | `scripts/host/syntra-codex-acl.py:130-170` | After a revoke the worker has no entry. |
| `AclUpdate.GrantThenRevoke` | `scripts/host/syntra-codex-acl.py:130-170` | A grant and the revoke after it restore every entry but the mask, which is the union of the group class. |
| `AclUpdate.OthersNeverChange` | `scripts/host/syntra-codex-acl.py:130-170` | Over any sequence of operations no entry but those of owner, worker, control account and mask changes, appears or disappears. |
| `AclUpdate.OwnerOnlyGains` | `scripts/host/syntra-codex-acl.py:130-170` | The owner entry only gains rights, and write only by a handoff that adds it. |
| `CodingExact.StepKeepsOneOwnerIff` | `src/syntra_build/application/recovery.py:717-753` | From a state with one owner and live workers that own, a step keeps the owner unique if and only if it does not queue a Codex job while another job owns the milestone; the guards of all four ways to queue one are named. |
| `CodingExact.OrderlyStepKeepsOwnerIff` | `src/syntra_build/application/recovery.py:377-498` | From an invariant state, a step keeps the owner unique if and only if it is not a recovery that copies a Codex job which moved its milestone on while another job owns it. |
| `CodingExact.OneOwnerIff` | `src/syntra_build/application/recovery.py:377-498` | Over every run, with crashes, unharvested jobs and recoveries anywhere, the owner is unique at every moment if and only if no step queued a Codex job beside another owner. |
| `CodingExact.DoublingNeedsStray` | `src/syntra_build/application/scheduler/core.py:378-462` | No step of a run doubles the owner before recovery has copied a Codex job that had moved its milestone on and was never harvested. |
| `CodingExact.OneCodexOwner` | `src/syntra_build/application/review_rework.py:335-360` | Until such a copy is made at most one Codex job can still work for the milestone, every live worker works for it, and only while the milestone is coded or over. |
| `CodingExact.CodexKeepsTheLimit` | `src/syntra_build/application/implementation_policy.py:30-37` | Over a milestone's whole life on the automatic routes, Codex processes and turns from CODING to VALIDATING_CHANGES each stay within the cycle limit, implementation, validation rework and review rework together, as long as no step queues a Codex job beside another owner. |
| `CodingExact.CanExceedIff` | `src/syntra_build/application/m32_executors.py:726-742` | Whatever else happens, the workers already past the budget check can take the milestone over its limit if and only if the processes started and those workers together are more than the limit. |
| `CodingExact.StepWithinIff` | `src/syntra_build/application/m32_executors.py:726-742` | Processes and claims within the limit stay so in a step if and only if the check, which counts processes only, does not let a worker in when the claims already reach the limit. |
| `CodingExact.BudgetIsSafeIff` | `src/syntra_build/application/m32_executors.py:726-742` | Over every run, at no moment can the workers past the check exceed the limit if and only if the check never let a worker in beyond the claims. |
| `CodingExact.OneOwnerNeverOvercommits` | `src/syntra_build/application/m32_executors.py:726-742` | With one owner the check never lets a worker in beyond the claims. |
| `CodingOwner.StepKeepsOwner` | `src/syntra_build/application/lifecycle.py:371-394` | Ticks, both rework handoffs, workers, recovery, harvest, blocks and resumes keep the owner unique and in its place, apart from copies of jobs that moved their milestone on. |
| `CodingOwner.LateHarvestOverspends` | `src/syntra_build/application/scheduler/core.py:378-462` | A concrete run in which a job is never harvested, recovery copies it, and two workers pass the check together: the limit is exceeded. |
| `CodingBounds.CodexIsBounded` | `src/syntra_build/application/m32_executors.py:726-742` | Over every run: with never more than k workers between budget check and process, at most limit + k - 1 processes are paid for, and there are no more cycles than processes. |
| `CodingBounds.OneJobPerEntry` | `src/syntra_build/application/lifecycle.py:171-240` | Each entry of the milestone into CODING or VALIDATING_CHANGES gets at most one lifecycle job of a kind, however often the scheduler ticks. |
| `CodingBounds.FinishedJobBlocks` | `src/syntra_build/application/lifecycle.py:371-394` | A finished job for the current entry makes the next tick block milestone and project, and queue nothing. |
| `CodingBounds.TickQueuesIff` | `src/syntra_build/application/lifecycle.py:171-240` | A tick queues a job if and only if the entry is current, not review rework's own, and nothing for it is active or finished. |
| `CodingService.LoopKeepsItsBounds` | `src/syntra_build/application/implementation_policy.py:30-37` | The program itself, with everyone acting between its steps: one lifecycle job of a kind for each entry, and, as long as no step queued a Codex job beside another owner, a unique owner and a kept budget. |
| `CodingService.Implementation.SchedulerTick` | `src/syntra_build/application/lifecycle.py:171-240` | One tick over the milestone, as a step of the run, whatever happened before it. |
| `CodingService.Implementation.ExecuteCodex` | `src/syntra_build/application/m32_executors.py:642-832` | One Codex job, with anything happening between its check, its process and its conclusion: each is a step of the run, and undisturbed they compose to exactly the specified result. |
| `CodingService.Implementation.RecoverLost` | `src/syntra_build/application/recovery.py:377-498` | Startup recovery of one lost job, as a step of the run. |
| `CodingService.Implementation.HandValidationOver` | `src/syntra_build/application/implementation_policy.py:127-241` | A validation that asks for rework, as a step of the run. |
| `CodingService.Implementation.HandReviewOver` | `src/syntra_build/application/review_rework.py:178-493` | A review that asks for rework, as a step of the run. |
| `CodingService.Implementation.Tick` | `src/syntra_build/application/lifecycle.py:371-400` | A tick is the specified one: the owner's end blocks, otherwise the locked enqueue. |
| `CodingService.Implementation.ReviewReworkOwnsCoding` | `src/syntra_build/application/lifecycle.py:430-460` | Review rework owns CODING exactly by the provenance of the newest entry. |
| `CodingService.Implementation.Enqueue` | `src/syntra_build/application/lifecycle.py:171-240` | At most one job, or the block, as specified. |
| `CodingService.Implementation.FindProducer` | `src/syntra_build/application/implementation_policy.py:146-182` | The producer is the job of the newest transition into VALIDATING_CHANGES or, failing that, of the newest successful process. |
| `CodingService.Implementation.QueueValidationRework` | `src/syntra_build/application/implementation_policy.py:127-241` | One handoff for each validation: nothing, a block at the limit, or the transition with its job. |
| `CodingService.Implementation.EnqueueReviewRework` | `src/syntra_build/application/review_rework.py:65-127` | One job for each rework task, queued with the transition to CODING. |
| `CodingService.Implementation.BeginCodex` | `src/syntra_build/application/m32_executors.py:656-742` | The worker passes its budget check, blocks the milestone, or stops, as specified, and reports exactly whether it was let in. |
| `CodingService.Implementation.ConcludeCodex` | `src/syntra_build/application/m32_executors.py:742-805` | Real changes move the milestone on, none block it, failure leaves it. |
| `CodingService.Implementation.ReplaceLost` | `src/syntra_build/application/recovery.py:377-498` | A lost job is abandoned and, unless handed on, copied when clean and alone, or blocked when dirty. |
| `CodingService.Implementation.BlockImplementation` | `src/syntra_build/application/implementation_policy.py:40-76` | Milestone and project are blocked together, or nothing changes. |
| `CustodyHistory.ChainOfCustody` | `src/syntra_build/application/m32_executors.py:1316-1385` | Over every run each visit to PR_CREATING is an entry of its own, for a record that is linked to an ACCEPT change set by parent and diff hash and was seen at the remote; and its commit is the accepted files on that parent if and only if HEAD was kept while it was made, or had moved to a twin of it. |
| `CustodyHistory.RecordIsTrueIff` | `src/syntra_build/infrastructure/git_workspace.py:226-236` | Over every run, with HEAD free to move between any two Git processes: a record names the accepted files on its recorded parent if and only if HEAD did not move between the read of the parent, the commit and the second read, or the commit read is a twin with the same entries on the same parent. |
| `CustodyHistory.RecordIsTrueIffHeadKept` | `src/syntra_build/infrastructure/git_workspace.py:226-236` | Where the repository holds no such twin, the record is true if and only if HEAD did not move in that window. |
| `CustodyHistory.MovedHeadBreaksTheChain` | `src/syntra_build/infrastructure/git_workspace.py:226-236` | A concrete run: HEAD moves between the commit and the second read of it, every later check agrees, and PR_CREATING is entered for a commit nobody accepted. |
| `CustodyHistory.HasWindow` | `src/syntra_build/infrastructure/git_workspace.py:226-236` | Whoever stands between reading the parent and saving the record came through the three processes in that order and stood still between them. |
| `CustodyHistory.EveryRecordWasSaved` | `src/syntra_build/infrastructure/persistence/workspaces.py:134-162` | Every record was saved by a transaction of its own in the run. |
| `CustodyHistory.EntriesAreVisits` | `src/syntra_build/application/m32_executors.py:1366-1385` | The entries into PR_CREATING are exactly as many as the milestone's steps from PUSHING to PR_CREATING. |
| `CustodyHistory.CreatingWasEntered` | `src/syntra_build/application/m32_executors.py:1366-1385` | A milestone is in PR_CREATING, blocked or not, only after such an entry. |
| `Custody.SeenWasThere` | `src/syntra_build/application/m32_executors.py:1366-1385` | Whatever is recorded as seen was the remote branch at some moment of the run. |
| `Custody.StepKeepsInvariant` | `src/syntra_build/application/m32_executors.py:1082-1398` | Every step of commit and push, each Git process one of its own, crash and replay included, and everything others do in between, keeps every record linked and traced to the commit made for it. |
| `Custody.Reachable` | `src/syntra_build/application/m32_executors.py:1082-1398` | That invariant holds in every reachable state. |
| `WorkspaceServices.WorkspaceService.ExecuteCommit` | `src/syntra_build/application/m32_executors.py:1082-1187` | In a run that began clean success means a linked record exists, in custody exactly if HEAD was kept; every step is a step of the protocol, whatever interferes between any two Git processes. Undisturbed, outcome and state are exactly the specified ones. |
| `WorkspaceServices.WorkspaceService.CommitAccepted` | `src/syntra_build/application/workspaces.py:271-357` | Staging, committing and recording the accepted diff are the protocol's steps in order; undisturbed they leave exactly the specified state. |
| `WorkspaceServices.WorkspaceService.StageAccepted` | `src/syntra_build/infrastructure/git_workspace.py:166-224` | The paths of the accepted diff are added, and the worker goes on only with an index whose entries are exactly the accepted files. |
| `WorkspaceServices.WorkspaceService.CommitStaged` | `src/syntra_build/infrastructure/git_workspace.py:226-236` | Read HEAD, commit, read HEAD: three processes with anything between them, and a record of what the third one showed. |
| `WorkspaceServices.WorkspaceService.SaveCommit` | `src/syntra_build/infrastructure/persistence/workspaces.py:134-162` | The record and the durable head are saved together. |
| `WorkspaceServices.WorkspaceService.VerifyCommit` | `src/syntra_build/application/m32_executors.py:1220-1252` | The milestone moves only when record, evidence and live workspace agree. |
| `WorkspaceServices.WorkspaceService.ExecutePush` | `src/syntra_build/application/m32_executors.py:1273-1398` | In a run that began clean success means a linked record was seen at the remote, in custody exactly if HEAD was kept. Undisturbed, outcome and state are exactly the specified ones, for every way the push may be applied and its transport break. |
| `WorkspaceServices.WorkspaceService.PushBranch` | `src/syntra_build/infrastructure/git_workspace.py:252-274` | The push is applied or not, whatever the transport reports. |
| `WorkspaceServices.WorkspaceService.RereadRemote` | `src/syntra_build/application/workspaces.py:377-397` | The remote alone decides: with the commit there the push goes on; otherwise the failure is transient exactly if the transport was ambiguous and the remote is as it was before, and permanent if not. |
| `WorkspaceServices.WorkspaceService.EnterPrCreating` | `src/syntra_build/application/m32_executors.py:1366-1398` | PR_CREATING is entered for the record that was observed, and for no other. |
| `WorkspaceServices.CommitTakesCustody` | `src/syntra_build/application/workspaces.py:271-357` | An untouched accepted diff is committed: one commit on the old head with exactly the accepted files, one record of it, a clean tree, and the milestone PUSHING. |
| `WorkspaceServices.CommitReplaysQuietly` | `src/syntra_build/application/m32_executors.py:1120-1187` | Running the commit executor again after it succeeded changes nothing and succeeds again. |
| `WorkspaceServices.PushReachesRemote` | `src/syntra_build/application/m32_executors.py:1316-1398` | A push that is applied, or was before, takes the milestone to PR_CREATING for its record; one that is not leaves records and milestone alone and is reported as transient exactly when its transport was ambiguous, and as permanent otherwise. |
| `WorkspaceServices.PushReplaysQuietly` | `src/syntra_build/application/m32_executors.py:1316-1398` | Running the push executor again after it succeeded changes nothing and succeeds again, whatever the transport does. |
| `WorkspaceServices.ServiceKeepsCustody` | `src/syntra_build/application/m32_executors.py:1082-1398` | A service whose run began clean visits PR_CREATING once for each entry, each for a linked record that was seen at the remote and is in custody exactly if HEAD was kept while it was made. |
| `ChangeValidation.ChangeValidationService.Validate` | `src/syntra_build/application/change_validation.py:167-393` | The saved decision and findings are exactly those the evidence raises, and afterwards the unresolved blocking types of that workspace are exactly the types raised. |
| `ChangeValidation.CollectFindings` | `src/syntra_build/application/change_validation.py:207-299` | A finding is reported exactly when the evidence raises it. |
| `ChangeValidation.Decide` | `src/syntra_build/application/change_validation.py:301-311` | BLOCKED exactly on an unsafe finding, ACCEPT exactly with files and no finding at all. |
| `ChangeValidation.MirrorIsExact` | `src/syntra_build/application/change_validation.py:357-393` | Whatever events came before, resolving what vanished and recording what is there leaves exactly the active types open. |
| `ChangeValidation.AcceptIffNothingRaised` | `src/syntra_build/application/change_validation.py:301-393` | ACCEPT exactly when there is something to accept and no condition is left for the workspace. |
| `ChangeValidation.OtherScopesUntouched` | `src/syntra_build/application/security.py:173-200` | Rewriting one workspace's conditions leaves every other's as they were. |
| `ChangeValidation.BlockedAfterValidation` | `src/syntra_build/application/security.py:236-257` | With nothing else open, the milestone is blocked exactly when a condition is left. |
| `SecurityLog.SecurityPolicy.Record` | `src/syntra_build/application/security.py:63-121` | One event is appended, or the log is as it was, exactly when a blocking event is not severe enough. |
| `SecurityLog.SecurityPolicy.Resolve` | `src/syntra_build/application/security.py:123-171` | Succeeds exactly for an unresolved blocking event, and resolves that one only. |
| `SecurityLog.SecurityPolicy.ResolveCleanRevalidation` | `src/syntra_build/application/security.py:173-200` | Resolves exactly the open events of that workspace and source whose type is no longer active. |
| `SecurityLog.SecurityPolicy.IsBlocked` | `src/syntra_build/application/security.py:236-257` | Blocked exactly when an unresolved blocking event concerns the host, the project or the milestone. |
| `PullRequests.PullRequestService.Establish` | `src/syntra_build/application/pull_requests.py:205-350` | No provider mutation unless evidence, local HEAD, repository, base branch, security and remote HEAD all permit it; then at most two create calls, the second only after an observed absence; at most one pull request is added; success means the saved, verified, open, matching one at the head. With a provider that answers, the outcome is exactly the specified one. |
| `PullRequests.PullRequestService.EstablishRepeatedly` | `src/syntra_build/application/pull_requests.py:205-350` | Any number of runs, each under conditions of its own and failing or crashing anywhere, leave at most one open pull request for the branch and add at most one, and none while no run is permitted. |
| `PullRequests.PullRequestService.Check` | `src/syntra_build/application/pull_requests.py:205-276` | The preconditions hold exactly when every one of them does, and otherwise the first that does not, in the source's order, is reported. |
| `PullRequests.FirstRunEstablishes` | `src/syntra_build/application/pull_requests.py:295-350` | A branch without pull requests gets its own in one run, whether the reply to the create call arrives or is lost. |
| `PullRequests.NextRunFindsIt` | `src/syntra_build/application/pull_requests.py:380-403` | Another run then finds it without a create call, saved or not. |
| `PullRequests.PullRequestService.CreateOrGet` | `src/syntra_build/application/pull_requests.py:380-469` | A persisted pull request means no create at all; otherwise look, create, look again, create once more. |
| `PullRequests.PullRequestService.SettleAmbiguous` | `src/syntra_build/application/pull_requests.py:427-469` | After a lost reply every further create call is made with nothing of the branch open. |
| `PullRequests.PullRequestService.ReconcileAfterConflict` | `src/syntra_build/application/pull_requests.py:471-501` | A conflict is settled only by exactly one open pull request, which matches. |
| `PullRequests.PullRequestService.Verify` | `src/syntra_build/application/pull_requests.py:504-537` | Accepts exactly an open, matching pull request at the expected head. |
| `PullRequests.PullRequestService.SaveVerified` | `src/syntra_build/infrastructure/persistence/pull_requests.py:120-195` | The milestone's row never takes another number, repository, head branch or base branch. |
| `FenceScanner.ProfileBlocks` | `src/syntra_build/application/ci_profiles.py:174-203` | The one-pass scanner computes exactly the declarative reading of fenced blocks, errors included. |
| `FenceScanner.SelectBlock` | `src/syntra_build/application/ci_profiles.py:145-171` | A block is selected exactly when the reading succeeds with one profile block. |
| `FenceScanner.ReadingConcatenates` | `src/syntra_build/application/ci_profiles.py:174-203` | Scanning a closed prefix and then a suffix concatenates their blocks; the first error wins. |
| `FenceScanner.WrappingHides` | `src/syntra_build/application/ci_profiles.py:174-203` | A document in a foreign fence that none of its lines closes selects nothing, and scanning goes on after the closing line. |
| `FenceScanner.SelectedBlocksAreFenced` | `src/syntra_build/application/ci_profiles.py:174-203` | Every selected block is exactly the lines between a three-backtick profile fence and the first line that closes it. |
| `JobRetries.RunsAreFinite` | `src/syntra_build/domain/job_state_machine.py:18-45` | Every run of a job, retried, promoted, recovered or abandoned, has at most six steps an attempt and two more, and enters RUNNING as often as its attempt number says, never more than allowed. |
| `JobRetries.StepDescends` | `src/syntra_build/domain/job_state_machine.py:18-45` | Every accepted transition lowers the measure of attempts left, then rank of the state. |
| `JobRetries.RetryWaitMeansAttemptsRemain` | `src/syntra_build/application/retries.py:59-93` | A job that waits for a retry has attempts left. |
| `JobRetries.FailureOutcome` | `src/syntra_build/domain/failures.py:98-117` | A failed job waits within the jitter bounds if and only if the failure is transient and attempts remain; exhausted exactly when transient with none left. |
| `JobRetries.RetryIsRefusedIff` | `src/syntra_build/infrastructure/persistence/jobs.py:314-366` | The repository refuses the request made for a failed job if and only if the failure is transient, attempts remain and the sampled delay is zero. |
| `JobRetries.PositiveSchedulesAreAccepted` | `src/syntra_build/domain/failures.py:62-88` | A positive schedule with jitter below one is never refused. |
| `JobRetries.BoundsAreOrdered` | `src/syntra_build/domain/failures.py:62-88` | The jitter bounds are real, ordered and around the base delay. |
| `JobRetries.BoundsGrow` | `src/syntra_build/domain/failures.py:77-88` | Later attempts never wait within smaller bounds. |
| `JobRetries.JobRepository.PromoteDueRetries` | `src/syntra_build/application/retries.py:96-140` | The due retries, earliest first and up to the limit, are exactly those whose retry time has come; those with attempts left return to the queue, the others end, and no other job changes. |
| `JobRetries.JobRepository.DueRetries` | `src/syntra_build/infrastructure/persistence/jobs.py:191-203` | All due retries, or the earliest ones up to the limit, none twice. |
| `JobRetries.NoEarlyRetry` | `src/syntra_build/infrastructure/persistence/jobs.py:191-203` | A failed job is never due again before the lower jitter bound of its backoff has passed. |
| `JobRetries.JobRepository.ApplyTransition` | `src/syntra_build/infrastructure/persistence/jobs.py:259-366` | A transition is accepted exactly for a fresh state, a move of the table, attempts left for a start or a retry, and a retry time still to come; it lowers the measure, counts starts, and leaves every other job alone. Anything else changes nothing. |
| `Lifecycle.MilestonesRunInOrder` | `src/syntra_build/application/lifecycle.py:315-428` | In every reachable state at most one milestone is under way, everything before it is COMPLETE, and a COMPLETE project has only COMPLETE milestones, although ticks act on rows read earlier. |
| `Lifecycle.IndexNeverRefuses` | `src/syntra_build/infrastructure/persistence/migrations.py:117-119` | The dependency check alone keeps the slot: the unique index never has to refuse. |
| `Lifecycle.StepKeepsInvariant` | `src/syntra_build/application/lifecycle.py:258-428` | Every step, by overlapping, stale and lost ticks too, keeps the order and what each tick may still conclude. |
| `Lifecycle.CoordinatorRunsInOrder` | `src/syntra_build/application/lifecycle.py:258-428` | The program itself, with other ticks and writers between its reading and its acting: its milestones run in order, one at a time, and its project is complete only with all of them. |
| `Lifecycle.LifecycleCoordinator.BuildDue` | `src/syntra_build/application/lifecycle.py:315-428` | One tick reads the rows and acts on them later, each as a step of the run; undisturbed it acts on the rows as they are. |
| `Lifecycle.LifecycleCoordinator.Building` | `src/syntra_build/application/lifecycle.py:315-428` | The acting half of a tick, on old rows, changes the project and the milestones exactly as specified. |
| `Lifecycle.LifecycleCoordinator.InsertApproved` | `src/syntra_build/application/lifecycle.py:258-313` | All approved milestones are inserted with the project BUILDING, or nothing is. |
| `Lifecycle.LifecycleCoordinator.ApplyTransition` | `src/syntra_build/infrastructure/persistence/milestones.py:148-273` | A transition succeeds exactly when state, dependencies and slot allow, and stores exactly that row. |

## Left out

- MergeTheorems.CompletionIsProven: does not model the merge commit hash and merge time that a merged answer must carry; an answer that lacks them counts as a failed observation.
- GatekeeperService.Gatekeeper.Verify: the same for its observation, and for what is saved with it.
- GatekeeperService.Gatekeeper.ConfirmRecovery: the same for its second observation.
- MergeExecutor.VerifiedResult: compares neither the milestone's active pull request column nor the merge commit hash and time; the pull request is the one the attempt names.
- MergeExecutor.LatestAttempt: takes the newest by insertion where the source orders by request time; `MergeExecutor.NewestIsOnly` shows that no order makes a difference.
- GatekeeperService.Gatekeeper.Execute: progress is claimed for an undisturbed execution and up to the answer to the PUT only, because a verification right after it that returns false ends the job with a permanent failure (`src/syntra_build/application/m32_executors.py:1785-1786`).
- CodingExact.CodexKeepsTheLimit: covers the automatic routes; operator recovery (`src/syntra_build/application/implementation_recovery.py`) opens new entries by hand and is not modelled.
- CodingService.Implementation.BeginCodex: leaves out the replay branch for a process already completed by the same job and attempt, since Codex jobs have one attempt and recovery makes new jobs; the identity checks of task, review, pull request and workspace only ever stop the worker earlier.
- CiMonitor.CiMonitor.Reconcile: the individual check rows and the text by which a failure is classified are one input, `cause`.
- CiMonitor.CiMonitor.Save: the repository's refusal of check rows that regress is not modelled, since check rows are not.
- CiMonitor.EvidenceIsAcceptable: covers the refusals about the run's own row, not those about its check rows.
- SourceLinks.VerifySourceLink: names and link targets are sequences of path components; splitting the text is not modelled, nor is a tree that changes during the walk.
- AclUpdate.AclEditor.Update: skipping a write that would change nothing is not visible in the model, and the walk over the tree that calls it is not modelled.
- FenceScanner.ProfileBlocks: works on lines; splitting text into lines and parsing the selected block as TOML are not modelled.
- FenceScanner.SelectBlock: the selected block is not parsed, so the errors of its TOML and of its keys are not modelled.
- ChangeValidation.ChangeValidationService.Validate: secret scanning, path matching and diff collection are inputs.
- PullRequests.PullRequestService.Establish: the rows behind its preconditions, the push that may come before the remote is read, and the security event of a wrong repository are one input, `conditions`.
- PullRequests.PullRequestService.EstablishRepeatedly: does not cover others opening pull requests for the same branch or creates that the provider applies after it answered.
- JobRetries.FailureOutcome: delays are real numbers; the rounding of floating point is not modelled.
- Review verdict handling, human responses and gate notification: only the evidence they leave, as the merge guards read it, is modelled.
- The project state machine beyond BUILDING, COMPLETING, COMPLETE and BLOCKED as these protocols use it, project pause and resume, and repository provisioning: straight-line checks.
- SQL and JSON text, connections, threads, the scheduler core, Telegram, OpenAI, Codex and Git processes, health, metrics, backup, the admin and smoke commands: plumbing around the protocols.
