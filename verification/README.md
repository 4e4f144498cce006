# SkillGo: verified model of the job, agent-state, context and merge protocols

SkillGo runs agent jobs in sandboxes. A worker claims a job under a lease, runs an untrusted
model turn by turn, and publishes a checkpoint before each turn so that another worker can take
over after a crash. A trusted state object around the model keeps the plan, the proof of the
outputs, the requirements ledger and several caches. This project models those parts in Dafny and
proves what they are for.

The modules, hardest first:

- `JobRows`, `JobProtocol`, `JobFencing`, `JobCheckpoints`, `JobAtMostOnce`, `JobReplays`: one job
  row under any number of workers. Each transaction that takes the row locks is one atomic step, and
  its lease check compares the run as the attempt's session last loaded it; status writes that follow
  an unlocked lease check are steps of their own; crashes, lost commit acknowledgements, user
  cancellation, retention and the orphan sweep may happen anywhere.
- `CheckpointBundle`, `SavedState`: the object a checkpoint is stored as, and its round trip.
- `PlanGraph`, `Plans`, `PlanAcceptance`, `SkillPhases`, `AgentState`, `AgentRuns`, `AgentPolicy`: the
  execution state. `AgentState` gives every operation's effect as a function and proves the theorems
  over whole runs; `AgentRuns` holds the runs that lose an order; `AgentPolicy.AgentExecutionState` is
  the object whose methods have those effects.
- `TextWindows`, `ObservationCache`, `ReferenceShelf`: cached reads against a file system.
- `History`, `ContextProjection`, `TurnHistory`, `WorkflowCursor`: the conversation the model is sent.
- `ArtifactNames`, `StreamMerge`, `EnvironmentBuilds`, `Migration`: self-contained algorithms and the
  second fenced lease. `Decimals`, `Encoding`, `Sorting` and `Wrappers` are shared vocabulary.

## What was found

Eight properties that one would expect do not hold as they stand. The code is modelled as it is, and
each comes with a run or an input on which it fails and with the condition under which it holds.

1. *A turn's tools can run twice.* The job memory is a JSON column that the agent loop and the worker
   read, change and write back without the lease check (`sandbox_agent_loop.py:601`, `:653`,
   `sandbox_worker.py:635`), from a session that does not expire its objects on commit. A stale
   attempt can put an old checkpoint pointer back. `JobAtMostOnce.AtMostOnceTurns` holds for every
   run in which no such write turns the job back and no snapshot is skipped
   (`sandbox_agent_loop.py:727-733`). `JobReplays.WriteReplaysIff` says that this is the right notion:
   in a job that can still be claimed, a memory write lets some continuation repeat a turn if and only
   if it turns the job back. `JobReplays` also gives, for every configuration, a run against each of the
   two conditions.
2. *A cancelled job can still become succeeded.* The lease check under the row locks
   (`sandbox_worker.py:237-247`) compares the run that the session has cached; only the unlocked check
   loads it again. A locked commit is the current attempt's, in its lease, if and only if the run was
   not closed since the attempt last loaded it (`JobFencing.LockedCommitIsCurrentIff`).
   `JobReplays.CancelledJobSucceeds` and `ClosedMarkDangles` are runs that go wrong. Recovery cannot
   open this window: an attempt it takes a job from never commits again (`JobFencing.ReclaimedForever`).
3. *A remembered read can be stale.* Files of the inputs and of the Skill packages are pinned as
   immutable, but tools may rewrite them, and nothing drops a pin: after a rewrite the next read is served
   from the shelf and brings the old text back into both caches (`agent_policy.py:984-996`,
   `sandbox_agent_loop.py:480-485`). A verifier runs a program of the model's choice, a collection may
   restore bytes that were accounted for before, and a write follows links; none of these drops the
   cached reads of the files it changes. `ObservationCache.FreshThroughoutIff` is the exact condition over
   whole runs, `PinnedReadIsFreshIff` and `RememberedReadIsFreshIff` those of one read;
   `RewrittenReferenceIsStale` and `ChangedFileIsStale` are the runs.
4. *A ready or revoked environment can be built again.* A job that finds the image of a ready
   environment missing marks the row failed without testing it again (`sandbox_worker.py:503-514`).
   `EnvironmentBuilds.ReadyIsFinal` and `RevokedIsFinal` are the exact conditions, `ReadyRebuilds` and
   `RevokedRebuilds` the runs.
5. *The order of progress can be broken by reopening verification.* A recorded mutation reopens the
   completed verification step even when another completed or running step depends on it
   (`Plans.ReopenKeepsProgress`, an if-and-only-if; `AgentRuns.LateMutationBreaksProgress`, the run).
6. *Ordered skills can get stuck.* Invalidating an early phase while a later one stays completed
   leaves no sequence of completions that finishes (`SkillPhases.OrderedSkillsCanFinish`, an
   if-and-only-if; `AgentRuns.DiscardedPhaseBlocksSkills`, the run). In any run only an invalidation
   that discards further phases repairs it (`AgentRuns.OnlyDiscardingRepairs`).
7. *De-duplication can exceed the token budget.* It compares entries encoded once, but the state message
   encodes them twice (`ContextProjection.DeduplicationFits`, an if-and-only-if; `OverrunInstance`, the
   input; `OverrunIsSmall` bounds the excess).
8. *The merge of an intact database can be rejected.* A renamed endpoint slug may be one that an earlier
   source row brought along, and the unique index on slugs (`models.py:379`) then rejects the insert and
   with it the whole transaction (`Migration.MergeSucceedsIff`, an if-and-only-if;
   `Migration.IntactMergeAborts`, the input).

## Model

| member | source | states |
|---|---|---|
| JobRows.JobTable.ClaimJob | backend/app/sandbox_worker.py:101-200 | a claim either fails an exhausted job or hands out the next attempt number with a fresh token that the row then accepts |
| JobRows.JobTable.HeartbeatJob | backend/app/sandbox_worker.py:203-221 | a heartbeat extends the lease exactly when the row still carries that token and owner |
| JobRows.WorkerSession.AssertLease | backend/app/sandbox_worker.py:224-256 | the unlocked check loads the run and passes exactly when the row carries the lease unexpired; the locked one changes nothing and passes exactly when the loaded columns do |
| JobRows.WorkerSession.PublishCheckpoint | backend/app/durable_checkpoint.py:199-228 | the pointer changes exactly when the locked lease check passes, and nothing else of the row does; otherwise the session forgets what it had loaded |
| JobRows.RecoverOne | backend/app/sandbox_worker.py:1014-1107 | column by column: an interrupted row fails as uncertain exactly when a turn was in flight, as exhausted exactly when otherwise no attempt is left, and is queued again without an error otherwise; its pointer stays, and a row whose lease is current stays as it is |
| JobRows.RecoveryReclaims | backend/app/sandbox_worker.py:1014-1107 | the same of the specification that the runs are about: the code recorded follows from the old pointer and the old attempts alone |
| JobRows.ClosedRows | backend/app/sandbox_worker.py:777-907 | success, failure and cancellation of a running row, column by column |
| JobRows.JobTable.RecoverInterruptedJobs | backend/app/sandbox_worker.py:980-1145 | one recovery pass treats exactly the listed jobs whose lease is gone, each column by column as above, and reports each reclaimed attempt by its own label |
| JobRows.ExecutionIdInjective | backend/app/sandbox_worker.py:79-81 | two attempts of one job never share an execution label |
| JobRows.CleanupExecution | backend/app/sandbox_runtime.py:651-681 | cleanup removes exactly the removable resources recorded for that job and that attempt |
| JobRows.CleanupSparesOtherAttempts | backend/app/sandbox_runtime.py:651-681 | cleaning up after one attempt never matches what a later attempt labelled |
| JobRows.CleanupMissesHandovers | backend/app/sandbox_checkpoint.py:229-231 | a sandbox handed over inside an attempt carries a label that no cleanup of the job matches |
| JobFencing.LeaseRun | backend/app/sandbox_worker.py:101-256 | in every run a running row belongs to the newest attempt, every other row to nobody, and tokens are distinct |
| JobFencing.FreshCommitIsCurrent | backend/app/sandbox_worker.py:203-256 | a recorded failure and an effective heartbeat are always the newest attempt's, the failure within its lease |
| JobFencing.LockedCommitIsCurrentIff | backend/app/sandbox_worker.py:224-256 | in every run a checkpoint, in-flight mark or success is committed by the current attempt in its lease if and only if the run was not closed since that attempt last loaded it |
| JobFencing.SupersededStep | backend/app/sandbox_worker.py:203-256 | a superseded attempt passes no unlocked check, records no failure and extends no lease |
| JobFencing.SupersededForever | backend/app/sandbox_worker.py:203-256 | once the lease a superseded attempt has loaded is over, no continuation of any run holds a commit, failure or effective heartbeat of it |
| JobFencing.ReclaimedForever | backend/app/sandbox_worker.py:1035-1107 | after a recovery took the job from an attempt, in every continuation none of its commits, failures or heartbeats takes effect |
| JobFencing.ReclaimSupersedes | backend/app/sandbox_worker.py:1099-1107 | a recovery and a new claim each supersede every earlier attempt |
| JobFencing.LateHeartbeatRevives | backend/app/sandbox_worker.py:203-221 | a heartbeat after expiry but before recovery makes the lease valid again |
| JobFencing.BoundedClaims | backend/app/sandbox_worker.py:122-156 | over every run a job is claimed at most the configured number of times beyond its answered attempts |
| JobFencing.RequeuedIsClaimable | backend/app/sandbox_worker.py:1050-1120 | a job that recovery queued again is never rejected as exhausted at its next claim |
| JobAtMostOnce.LiveLosesNothing | backend/app/sandbox_agent_loop.py:601-602 | in a run that loses no update, an attempt whose locked commits get through never overwrites the memory with an outdated pointer |
| JobAtMostOnce.LiveTurnsNothingBack | backend/app/sandbox_agent_loop.py:601-602 | in every careful run the memory writes of such an attempt leave an unfinished job at its place |
| JobAtMostOnce.FaithfulRunKeepsPointer | backend/app/sandbox_agent_loop.py:601-602 | a run without lost updates and skipped snapshots puts no outdated pointer back at all, in-flight marks included |
| JobCheckpoints.PointerNamesObject | backend/app/storage_lifecycle.py:151-213 | at every point of every run that puts no outdated pointer back the published pointer names a stored object, through crashes, lost acknowledgements, deletions, retention and sweeps |
| JobCheckpoints.ReadyCheckpointLoads | backend/app/durable_checkpoint.py:131-136 | an attempt that starts on a ready pointer resumes at its turn |
| JobAtMostOnce.AtMostOnceTurns | backend/app/sandbox_agent_loop.py:712-727 | over every interleaving the tools of each turn number are dispatched by at most one attempt, given that no memory write turns the job back and no snapshot is skipped |
| JobAtMostOnce.ReadyCheckpointIsExact | backend/app/sandbox_agent_loop.py:639-655 | a ready pointer separates the turns: those below its number have been dispatched, the others have not |
| JobAtMostOnce.InFlightBlocksClaims | backend/app/sandbox_worker.py:1040-1048 | while the pointer is in flight no new attempt can be claimed |
| JobReplays.WriteReplaysIff | backend/app/sandbox_agent_loop.py:601-602 | after any careful run a memory write that leaves a job claimable lets some careful continuation dispatch a turn twice if and only if it turns the job back |
| JobReplays.LostUpdateReplays | backend/app/sandbox_agent_loop.py:601-602 | for every configuration one lost update lets two attempts dispatch turn 1 |
| JobReplays.SkippedCheckpointReplays | backend/app/sandbox_agent_loop.py:727-733 | for every configuration one skipped snapshot lets two attempts dispatch turn 1 |
| JobReplays.CancelledJobSucceeds | backend/app/sandbox_worker.py:777-790 | for every configuration a run in which a cancelled job becomes succeeded by a locked commit of a superseded attempt |
| JobReplays.ClosedMarkDangles | backend/app/durable_checkpoint.py:231-235 | for every configuration with at least three attempts, a run without memory writes in which the in-flight mark of a closed attempt puts the pointer back on a deleted object |
| CheckpointBundle.WriteBundle | backend/app/durable_checkpoint.py:89-128 | when a bundle is written, what it holds, the size and signature recorded for it, and that an export never meets the archive limit |
| CheckpointBundle.WrittenFits | backend/app/durable_checkpoint.py:89-120 | with the workspace and the encoded state within their limits the archive is within its own, before and after its directory is appended |
| CheckpointBundle.LoadBundle | backend/app/durable_checkpoint.py:131-168 | the checks of the loader in their order, and the files and state it returns |
| CheckpointBundle.LoadsIff | backend/app/durable_checkpoint.py:131-168 | a bundle loads if and only if it is ready, of this job, stored, authentic, within the limits, made for this job and network setting, and every listed file is there, inside the workspace, within the limits and as its digest says; the files loaded are then those members |
| CheckpointBundle.RefusalIsExact | backend/app/durable_checkpoint.py:131-168 | which condition each refusal stands for, the first that fails |
| CheckpointBundle.FirstFaultIsReported | backend/app/durable_checkpoint.py:152-165 | the first listed file with something wrong decides the refusal: path, missing member, size or digest |
| CheckpointBundle.PartsRejoin | backend/app/durable_checkpoint.py:171-174 | the parts of a path are what its slashes separate |
| CheckpointBundle.ValidPathsStayBelow | backend/app/durable_checkpoint.py:171-174 | no valid path takes a step up |
| CheckpointBundle.RoundTrip | backend/app/durable_checkpoint.py:89-168 | every bundle that was written loads back with the same state and the same files |
| CheckpointBundle.ContentsOf | backend/app/durable_checkpoint.py:152-165 | the loaded files are the written ones, path by path |
| CheckpointBundle.TamperedIsRefused | backend/app/durable_checkpoint.py:144-146 | anything but the written object, at the recorded size, is refused |
| CheckpointBundle.ForeignIsRefused | backend/app/durable_checkpoint.py:137-153 | a bundle loads only for its own user, job and network setting, and only into the workspace |
| SavedState.Save | backend/app/durable_checkpoint.py:56-69 | restoring a saved state gives it back, sets and skill numbers included |
| PlanGraph.Visitor.Visit | backend/app/agent_policy.py:392-404 | the recursive visit keeps its stack and finish order, and succeeds or leaves a witness that the graph is unsound |
| PlanGraph.Visitor.VisitAll | backend/app/agent_policy.py:403-404 | visiting all steps succeeds if and only if every dependency exists and the graph has no cycle |
| PlanGraph.OrderedIsSound | backend/app/agent_policy.py:389-404 | steps listed after their dependencies form no cycle |
| PlanGraph.PathsAreShort | backend/app/agent_policy.py:389-404 | in a sound graph no dependency path is longer than the number of steps |
| PlanAcceptance.Accept | backend/app/agent_policy.py:320-464 | the verdict on a submitted plan, every check in order, with the dependency check replaced by its meaning |
| PlanAcceptance.AcceptSteps | backend/app/agent_policy.py:373-424 | the checks on the normalised steps, in order |
| PlanAcceptance.VerdictIsExact | backend/app/agent_policy.py:373-424 | which condition of the steps each verdict stands for |
| PlanAcceptance.ShapeIsExact | backend/app/agent_policy.py:320-371 | which condition of the request each verdict before that stands for |
| PlanAcceptance.NormalizedFields | backend/app/agent_policy.py:345-371 | every field of a normalised step from the submitted one and the step it replaces, tracked or not |
| PlanAcceptance.NormalizedInOrder | backend/app/agent_policy.py:345-371 | the steps are normalised each at its own position, and all of them or none |
| PlanAcceptance.DependencyVerdictIsExact | backend/app/agent_policy.py:389-404 | a plan is refused for its dependencies if and only if one is missing or they form a cycle |
| PlanAcceptance.AcceptedPlan | backend/app/agent_policy.py:373-430 | an accepted plan is sound and well progressed, only appends requirements, and settles verification only with current proof of the same requirements |
| PlanAcceptance.AcceptedStepsAreClean | backend/app/agent_policy.py:354-371 | every step of an accepted plan has an id, a title, lists of distinct non-empty entries and a skill in range |
| PlanAcceptance.ResubmissionKeepsSteps | backend/app/agent_policy.py:345-371 | repeating the current plan with every optional field omitted changes none of its steps |
| PlanAcceptance.SubmittedPlanIsAccepted | backend/app/agent_policy.py:320-464 | a clean plan written out in full is accepted exactly as it is if and only if it is sound, well progressed, keeps the requirements and needs no verification |
| PlanAcceptance.Bind | backend/app/agent_policy.py:434-451 | only completed steps are bound to files |
| PlanAcceptance.BindStep | backend/app/agent_policy.py:444-450 | a binding refreshes the files that are present and keeps the old digest of those that are not |
| PlanAcceptance.BindingFields | backend/app/agent_policy.py:434-451 | every binding after a submission, from the files present and the binding before |
| Plans.EnsureActive | backend/app/agent_policy.py:517-563 | the answer of the step guard and the only change it makes, for any number of steps |
| Plans.ActivationIsExact | backend/app/agent_policy.py:517-563 | activation starts the only step that may start, and nothing when several may, none may or one runs |
| Plans.SomeStepIsReady | backend/app/agent_policy.py:521-533 | in a sound plan with a pending step and none running, some pending step has all its dependencies settled |
| Plans.NeverBlocked | backend/app/agent_policy.py:546-555 | the blocked answer cannot occur on an accepted plan |
| Plans.ActivationKeepsPlan | backend/app/agent_policy.py:530-533 | activation keeps the plan sound and starts a step only after its dependencies |
| Plans.ReopenKeepsProgress | backend/app/agent_policy.py:991-995 | reopening verification keeps the order of progress if and only if no completed or running step rests on it |
| Plans.SynchronizeKeepsPlan | backend/app/agent_policy.py:639-646 | completing verification with the other steps settled keeps plan and progress |
| Plans.AffectedSteps | backend/app/agent_policy.py:1067-1072 | the growing loop ends with exactly the steps that reach a changed one |
| Plans.AffectedIsLeast | backend/app/agent_policy.py:1067-1072 | that set is the least one holding the changed steps and closed under dependents |
| Plans.InvalidateKeepsPlan | backend/app/agent_policy.py:1073-1082 | afterwards no completed or running step has an open dependency, if none had before |
| SkillPhases.OrderedSkillsCanFinish | backend/app/agent_policy.py:565-577 | completions alone finish the ordered skills from here if and only if the completed ones are the first ones |
| SkillPhases.AnswersAreExact | backend/app/agent_policy.py:195-222 | which skill may be loaded or completed, and which reason refuses it |
| AgentRuns.LateMutationBreaksProgress | backend/app/agent_policy.py:991-995 | from every tracking start state a run after which a running step rests on an open verification step |
| AgentRuns.DiscardedPhaseBlocksSkills | backend/app/agent_policy.py:1064-1082 | from the start state a run after which no sequence of completions finishes the ordered skills, and the invalidation that clears the way again |
| AgentRuns.OnlyDiscardingRepairs | backend/app/agent_policy.py:565-577 | over every run a missing early phase stays missing until an invalidation discards further completed phases |
| AgentState.PassedVerifierRegisters | backend/app/sandbox_agent_loop.py:1226-1238 | the platform's own registration after a passed verifier is never refused |
| AgentState.RunKeepsPlan | backend/app/agent_policy.py:320-464 | over every run the plan stays sound, runs at most one step, and has its verification step |
| AgentState.ApplyKeepsPlan | backend/app/agent_policy.py:969-1082 | every operation keeps the plan, and keeps the order of progress unless and only unless it reopens a rested-on verification step |
| AgentState.RunKeepsProgress | backend/app/agent_policy.py:413-416 | over every run without such a reopening no step is ahead of its dependencies |
| AgentState.StepsNeverBlocked | backend/app/agent_policy.py:546-555 | in no reachable state does the step guard answer that every pending step is blocked |
| AgentState.RequirementsOnlyGrow | backend/app/agent_policy.py:387-388 | over every run the requirements ledger only grows by appending |
| AgentState.FinishIsHonest | backend/app/agent_policy.py:681-707 | in full verification, in every reachable state, the finish gate opens only if a verifier passed on exactly the current digests and nothing recorded since could have changed a file or the ledger |
| AgentState.GateIsExact | backend/app/agent_policy.py:681-707 | which condition of the state each blocker of the gate stands for, skill and step work included |
| AgentState.VerifiedOutputsPass | backend/app/agent_policy.py:681-707 | right after a passed verifier only missing plan or skill work can block finishing |
| AgentPolicy.AgentExecutionState.UpdatePlan | backend/app/agent_policy.py:320-464 | the verdict and the whole new state after a submitted plan |
| AgentState.AdoptionOutcome | backend/app/agent_policy.py:418-464 | what an accepted plan leaves of the state: proofs only while the requirements are the same, bindings of the completed steps |
| AgentPolicy.AgentExecutionState.EnsureActiveStep | backend/app/agent_policy.py:485-563 | the guard's answer in every mode, never the blocked one |
| AgentPolicy.AgentExecutionState.RecordMutation | backend/app/agent_policy.py:969-1003 | by the report alone: an exit code, a start or no refusal ends every proof, advances the epoch, drops the caches it must and reopens verification, and nothing else changes anything |
| AgentState.MutationOutcome | backend/app/agent_policy.py:969-1003 | by the report alone: an exit code, a start or no refusal ends both proofs, advances the epoch and reopens a completed verification step; a refusal with neither changes nothing |
| AgentPolicy.AgentExecutionState.RecordObservation | backend/app/agent_policy.py:981-983 | an observation is remembered for its epoch and across unrelated writes |
| AgentPolicy.AgentExecutionState.Reuse | backend/app/agent_policy.py:957-967 | which remembered observation answers a repeated request |
| AgentPolicy.AgentExecutionState.ReferenceCached | backend/app/agent_policy.py:250-289 | a pinned reference is served as the window of its pinned text and only its recency changes |
| AgentPolicy.AgentExecutionState.ReferencePin | backend/app/agent_policy.py:291-318 | which reads are pinned, and that a pinned one is then on the shelf |
| AgentPolicy.AgentExecutionState.CheckClaim | backend/app/agent_policy.py:579-618 | a claim is accepted exactly when it is well put, says passed, and names the proof that passed in this epoch on exactly these files; otherwise the first reason against it |
| AgentState.ClaimIsExact | backend/app/agent_policy.py:579-618 | which condition each refusal of a claim stands for |
| AgentState.ClaimOutcome | backend/app/agent_policy.py:579-647 | what a claim leaves: a validation and a completed verification step, a counted failure, or nothing |
| AgentState.VerifierOutcome | backend/app/sandbox_agent_loop.py:1226-1238 | what a verifier run leaves: a proof that says whether it passed, and if it did the validation and the completed verification step; in delivery only mode a skipped one |
| AgentPolicy.AgentExecutionState.RecordValidation | backend/app/agent_policy.py:579-647 | the whole new state after a claimed validation |
| AgentPolicy.AgentExecutionState.RegisterArtifactCollection | backend/app/agent_policy.py:928-943 | collected bytes that differ from the accounted ones end every proof; others change nothing but the managed map |
| AgentState.CollectionOutcome | backend/app/agent_policy.py:928-943 | when collected bytes count as changed, and what then ends |
| AgentPolicy.AgentExecutionState.InvalidateChangedSteps | backend/app/agent_policy.py:1064-1082 | exactly the affected steps are reopened, with their bindings, phases and proofs |
| AgentState.RefreshOutcome | backend/app/agent_policy.py:1064-1082 | what the affected steps lose, and what the others keep |
| AgentPolicy.AgentExecutionState.ReadSkill | backend/app/agent_policy.py:195-222 | loading respects the explicit order |
| AgentPolicy.AgentExecutionState.CompleteSkillPhase | backend/app/agent_policy.py:565-577 | completing respects loading, order and evidence |
| AgentState.SkillOutcome | backend/app/agent_policy.py:565-577 | loading and completing a skill change only the set they are about |
| AgentPolicy.AgentExecutionState.FinishGate | backend/app/agent_policy.py:681-707 | the first reason that blocks finishing, if any |
| TextWindows.WindowsTile | backend/app/sandbox_runtime.py:463-499 | following the next offset loses and repeats nothing and ends exactly at the end of the file |
| TextWindows.CompleteReference | backend/app/sandbox_agent_loop.py:485-502 | the paging loop ends, and rebuilds the whole file if it did not change |
| ObservationCache.HitIsFreshRead | backend/app/agent_policy.py:766-804 | a stable hit, the past-the-end answer included, has the fields of a fresh read |
| ObservationCache.NoteStable | backend/app/agent_policy.py:750-764 | remembering replaces the older entry and evicts the oldest until the bounds hold |
| ObservationCache.NoteIsExact | backend/app/agent_policy.py:750-764 | what is kept after an observation was remembered: the newest ones, as many as the bounds allow |
| ObservationCache.InvalidatePath | backend/app/agent_policy.py:727-739 | a write drops exactly the observations of its path and the listings above it |
| ObservationCache.StableCachedObservation | backend/app/agent_policy.py:766-804 | the lookup, with the newest measured end as fallback |
| ObservationCache.LookupIsExact | backend/app/agent_policy.py:766-804 | which entry answers, and when the past-the-end answer is given |
| ObservationCache.ReadShowsRequest | backend/app/sandbox_agent_loop.py:477-521 | a read of a file shows the window asked for, and a reference in full when none was asked for or it is required |
| ObservationCache.ReadIsRemembered | backend/app/sandbox_agent_loop.py:477-521 | what is remembered after a read |
| ObservationCache.CompleteReadPins | backend/app/agent_policy.py:291-318 | a complete read of a small reference pins it |
| ObservationCache.FreshAfterIff | backend/app/agent_policy.py:969-1000 | after a tool everything remembered is what a read would return now if and only if the tool left in the files what it leaves remembered |
| ObservationCache.FreshThroughoutIff | backend/app/agent_policy.py:969-1000 | over every run of tools, from any files, memory is fresh at every point if and only if every tool does so |
| ObservationCache.CacheAgreesWithWorkspace | backend/app/sandbox_agent_loop.py:477-521 | after any such run a read served from either cache or from the shelf has exactly the fields of a fresh one |
| ObservationCache.TidySpares | backend/app/agent_policy.py:726-739 | it suffices that no reference changes, a write reaches its own path only and no verifier, collection or platform write changes a file remembered |
| ObservationCache.PinnedReadIsFreshIff | backend/app/sandbox_agent_loop.py:480-485 | after a tool that drops the cached reads of a pinned reference, the next read is served from the shelf and is fresh if and only if the tool left the file |
| ObservationCache.RememberedReadIsFreshIff | backend/app/agent_policy.py:957-967 | after a verifier, an unchanged collection or a platform write a cached read is answered as before and is fresh if and only if they left what it shows |
| ObservationCache.RewrittenReferenceIsStale | backend/app/sandbox_agent_loop.py:480-485 | a run that reads, overwrites and reads a reference, after which its old text is served |
| ObservationCache.ChangedFileIsStale | backend/app/workflow_tools.py:128-130 | a run after which a cached read of a file that a verifier, a collection, the platform or a write through a link changed is stale |
| ObservationCache.WriteSparesOthers | backend/app/agent_policy.py:727-739 | a write keeps the observations of unrelated files |
| ReferenceShelf.PutShelf | backend/app/agent_policy.py:237-248 | pinning and its eviction loop |
| ReferenceShelf.PutIsBounded | backend/app/agent_policy.py:237-248 | after a pin the shelf is within both bounds, holds the newest pin last and no other new text |
| ReferenceShelf.EvictsOldestOnly | backend/app/agent_policy.py:237-248 | a pin evicts only the oldest entries, and only as long as the bounds are exceeded |
| ReferenceShelf.TouchMovesToEnd | backend/app/agent_policy.py:262-265 | a hit makes its entry the newest and keeps the order of the others |
| ReferenceShelf.TouchKeepsShelf | backend/app/agent_policy.py:262-265 | a hit changes only the recency order |
| ReferenceShelf.RunIsBounded | backend/app/agent_policy.py:237-318 | after any pins and hits the shelf is bounded and every text is the last one pinned for its path |
| ReferenceShelf.HitIsWindowOfPin | backend/app/agent_policy.py:250-289 | whatever the run and whatever is hit in between, a hit is the window of the last pinned text and following the next offsets rebuilds that text |
| ReferenceShelf.PinIsFound | backend/app/agent_policy.py:291-318 | a pin is found right after it was made |
| ReferenceShelf.PinnedFitsDefaultWindow | backend/app/agent_policy.py:291-318 | a pinned file is complete in one default window |
| History.PairedSplit | backend/app/agent_context.py:93-98 | a valid conversation may be cut before any message that is not a reply |
| ContextProjection.Project | backend/app/agent_context.py:67-178 | the projection is refused exactly when the least request does not fit, and otherwise is opening, longest fitting suffix and state message within the budget, with the references, each chosen exactly when it fits beside the newer ones kept |
| ContextProjection.GroupsPartition | backend/app/agent_context.py:94-98 | grouping loses nothing and every later exchange opens with the assistant |
| ContextProjection.OneAssistantEach | backend/app/agent_context.py:94-98 | no exchange holds a second assistant message |
| ContextProjection.ShelveNewest | backend/app/agent_context.py:125-133 | the references kept are the full entries at ascending positions, and a position is among them exactly when the entry fits beside the kept ones after it |
| ContextProjection.ShelveChooses | backend/app/agent_context.py:125-133 | the same of the specification |
| ContextProjection.FittingReferencesAreShown | backend/app/agent_context.py:125-133 | all references are kept if all fit together, and the newest one whenever it fits alone |
| ContextProjection.StateFitsIff | backend/app/agent_context.py:99-102 | what fits, in bytes of the request |
| ContextProjection.LatestIsLastExchange | backend/app/agent_context.py:93-99 | the latest exchange is everything from the last assistant message on |
| ContextProjection.RecentObservations | backend/app/agent_context.py:137-151 | the longest run of at most ten latest observations within both limits |
| ContextProjection.LongestSuffix | backend/app/agent_context.py:153-163 | the kept exchanges fit and one more would not |
| ContextProjection.ProjectionInMessages | backend/app/agent_context.py:153-167 | by positions of the conversation: the opening two messages, a suffix that begins where an exchange does, and the state message, within the budget in bytes, and no longer such suffix is |
| ContextProjection.ProjectionIsMaximal | backend/app/agent_context.py:153-159 | no longer suffix of exchanges would have fitted |
| ContextProjection.ProjectionKeepsPairing | backend/app/agent_context.py:93-163 | projection never splits an exchange or orphans a reply |
| ContextProjection.DeduplicationLosesNoText | backend/app/agent_context.py:16-64 | a reference left out of the state message is still complete in the named reply |
| ContextProjection.DeduplicationIsExact | backend/app/agent_context.py:16-64 | a reference is replaced exactly when some retained reply holds it complete and naming the last such reply is shorter |
| ContextProjection.DeduplicationFits | backend/app/agent_context.py:163-168 | the de-duplicated request is within the budget if and only if the replacements grow, as the state message encodes them, by no more than the request had to spare |
| ContextProjection.ReplacementGrows | backend/app/agent_context.py:53-62 | for plain texts a chosen replacement is longer for exactly one text length, and then by one byte |
| ContextProjection.OverrunIsSmall | backend/app/agent_context.py:53-62 | with plain references the excess is at most half a token per reference |
| ContextProjection.OverrunHappens | backend/app/agent_context.py:53-62 | a budget met exactly is exceeded after de-duplication |
| ContextProjection.OverrunInstance | backend/app/agent_context.py:53-62 | a concrete budget, reference and reply for which it is |
| TurnHistory.RunTurn | backend/app/sandbox_agent_loop.py:850-1984 | message by message: without a batch each call is answered in order with its own result, an answer in text with the first result, a batch with its one report; then notices and guidance |
| TurnHistory.SaidByMessage | backend/app/sandbox_agent_loop.py:314-327 | every message of a turn at its place: assistant, replies, notices, guidance |
| TurnHistory.GuidanceOf | backend/app/sandbox_agent_loop.py:1958-1984 | the guidance is each nudge once and the closing one last, whatever was said before |
| TurnHistory.Report | backend/app/sandbox_agent_loop.py:1859-1889 | every child of a batch is counted once as succeeded, failed or skipped, and only the last executed may have failed |
| TurnHistory.TurnIsPaired | backend/app/sandbox_agent_loop.py:985-992 | every native call of a turn has exactly one reply, in order, before any guidance |
| TurnHistory.EveryRequestIsValid | backend/app/sandbox_agent_loop.py:775-780 | after any turns and resumptions every projection sent to the model keeps the call and reply protocol |
| WorkflowCursor.RunWorkflow | backend/app/sandbox_agent_loop.py:861-900 | what one workflow call runs and where it leaves the cursor |
| WorkflowCursor.LaunchIsExact | backend/app/sandbox_agent_loop.py:873-884 | which condition each refusal stands for, and where an accepted call starts |
| WorkflowCursor.RunIsExact | backend/app/sandbox_agent_loop.py:1851-1857 | what an accepted call leaves: no command and a failure when a reference is unreadable, otherwise every command with its own end up to the first that fails, and a cursor behind the last one done, marked failed exactly when one did |
| WorkflowCursor.DoneIsPrefix | backend/app/sandbox_agent_loop.py:1851-1857 | over any calls, recipes and failures the commands done since the last restart are the first ones of the recipe, each once |
| WorkflowCursor.NothingRunsTwice | backend/app/sandbox_agent_loop.py:873-884 | without a restart no done command runs again and the recipe stays the recorded one |
| WorkflowCursor.FailureStops | backend/app/sandbox_agent_loop.py:878-880 | after a failure nothing runs until a retry or restart is asked for |
| WorkflowCursor.RetryResumes | backend/app/sandbox_agent_loop.py:874-884 | a retry starts with the command that failed |
| ArtifactNames.NormalizeAll | backend/app/artifact_validation.py:24-39 | the list is accepted exactly when every path is |
| ArtifactNames.NormalizeStaysBelow | backend/app/artifact_validation.py:24-39 | exactly the paths strictly below the output root are accepted, and distinct ones stay distinct |
| ArtifactNames.NormalizeIsExact | backend/app/artifact_validation.py:24-39 | a relative path is taken below the workspace, and what is kept is the rest below the output root |
| ArtifactNames.Sanitize | backend/app/artifact_validation.py:42-46 | a segment becomes non-empty and free of unsafe characters |
| ArtifactNames.SafeSegmentsAreKept | backend/app/artifact_validation.py:42-46 | a segment that needs no cleaning is kept |
| ArtifactNames.RunIsOneUnderscore | backend/app/artifact_validation.py:20-46 | a run of unsafe characters between safe ones becomes one underscore |
| ArtifactNames.SanitizeIsExact | backend/app/artifact_validation.py:42-46 | what is left is the cleaned segment without blanks, dots and underscores at both ends, or the word file when nothing is |
| ArtifactNames.Cap | backend/app/artifact_validation.py:49-54 | names are cut to exactly the limit, keep an ordinary suffix and stay safe; short ones are unchanged |
| ArtifactNames.SuffixIsExact | backend/app/artifact_validation.py:49-54 | a suffix is the last dot and what follows it, with something before and after |
| ArtifactNames.NumberedInjective | backend/app/artifact_validation.py:95-107 | distinct counters give distinct names under any truncation |
| ArtifactNames.NumberedFits | backend/app/artifact_validation.py:98-107 | counters of at most eight digits keep the name within 180 characters |
| ArtifactNames.NumberedParts | backend/app/artifact_validation.py:95-107 | a numbered name is as much of the stem as fits, an underscore, the number and the suffix |
| ArtifactNames.JoinedInOrder | backend/app/artifact_validation.py:84-94 | a candidate is the nearest directories, outermost first, and the file name, joined by underscores |
| ArtifactNames.PreferredIsFewest | backend/app/artifact_validation.py:87-94 | the preferred name has the fewest directories that make it new, or all of them |
| ArtifactNames.FreeName | backend/app/artifact_validation.py:87-108 | the search ends and returns the preferred name or the first free number |
| ArtifactNames.UniqueNames | backend/app/artifact_validation.py:57-113 | the names are a bijection from the declared paths onto safe names, within the limit for fewer than 99999998 paths |
| ArtifactNames.DistinctBasesAreKept | backend/app/artifact_validation.py:87-94 | files whose names do not collide keep them |
| StreamMerge.MergeStream | backend/app/model_adapter.py:71-127 | the merged message: calls in index order, content and reasoning joined in order, and the last model, usage and finish given |
| StreamMerge.CallIsItsFragments | backend/app/model_adapter.py:100-113 | an indexed call is in the message exactly when a fragment of it came, with its fragments' names and arguments joined in order and its last id |
| StreamMerge.ContentIsJoined | backend/app/model_adapter.py:96-97 | the merged content is the contents of the chunks in order |
| StreamMerge.GatheredFields | backend/app/model_adapter.py:79-99 | content and reasoning are the parts of all events in order, and model, usage and finish the last ones given |
| StreamMerge.AddExtends | backend/app/model_adapter.py:100-113 | a fragment extends the call of its index, or without one the call numbered like those seen so far, and no other |
| StreamMerge.MessageIsUnique | backend/app/model_adapter.py:114-127 | the message is determined by what was gathered |
| StreamMerge.ChunkingIsIrrelevant | backend/app/model_adapter.py:79-113 | cutting any event of any stream between or inside its deltas changes nothing |
| StreamMerge.InterleavingIsIrrelevant | backend/app/model_adapter.py:100-113 | fragments of different calls may be interleaved in any way |
| StreamMerge.SameMessage | backend/app/model_adapter.py:71-127 | streams that differ only in interleaving merge to one message |
| StreamMerge.UnindexedOrderMatters | backend/app/model_adapter.py:103-105 | without an index the order of fragments does count |
| EnvironmentBuilds.EnvironmentRow.ClaimEnvironment | backend/app/environment_worker.py:49-63 | column by column: claiming fails an expired build and takes a queued one under a fresh token and a full lease |
| EnvironmentBuilds.EnvironmentRow.RenewLease | backend/app/environment_worker.py:32-46 | renewal succeeds exactly for the current unexpired holder |
| EnvironmentBuilds.EnvironmentRow.FinishAttempt | backend/app/environment_worker.py:66-73 | a builder's update takes effect exactly for the current unexpired holder, and leaves the image or the verdict it names and nothing of an earlier one |
| EnvironmentBuilds.EnvironmentRow.RequeueFailed | backend/app/environment_preparation.py:26-45 | a failure is queued again exactly when it is retryable and the cooldown is over, with nothing left of it |
| EnvironmentBuilds.EnvironmentRow.RetryFailed | backend/app/routers/skills.py:519-519 | a user may queue any failed build again |
| EnvironmentBuilds.EnvironmentRow.Revoke | backend/app/routers/admin.py:417-424 | whatever the row was it becomes revoked and no builder holds it |
| EnvironmentBuilds.EnvironmentRow.MarkImageMissing | backend/app/sandbox_worker.py:503-514 | whatever the row has become a job marks it failed, and no builder holds it |
| EnvironmentBuilds.ProcessOne | backend/app/environment_worker.py:76-109 | one claim makes at most three builds, and how it ends |
| EnvironmentBuilds.ReadyOnlyByHolder | backend/app/environment_worker.py:66-86 | over every run a row becomes ready only by its newest claim, within the lease, with the image it built |
| EnvironmentBuilds.LostBuilderIsFenced | backend/app/environment_worker.py:66-73 | a builder that lost its row never changes it again |
| EnvironmentBuilds.ClaimSupersedes | backend/app/environment_worker.py:49-63 | expiry, requeue, revocation, a lost image and a new claim each take the row from its builder |
| EnvironmentBuilds.ExpiredIsRetryable | backend/app/environment_preparation.py:29-34 | an expired build can be requeued if and only if no older verdict forbids it |
| EnvironmentBuilds.VerdictDecides | backend/app/environment_worker.py:104-107 | a recorded failure is requeued exactly when its builder called it retryable and the cooldown is over; a user's retry keeps the verdict |
| EnvironmentBuilds.ReadyIsFinal | backend/app/sandbox_worker.py:503-514 | a ready row stays as it is through a run if and only if the run has no revocation and no write by a job that read it as ready |
| EnvironmentBuilds.LateWriteRebuilds | backend/app/sandbox_worker.py:503-514 | from every state, a job that read the row as ready can put it back into a build |
| EnvironmentBuilds.ReadyRebuilds | backend/app/sandbox_worker.py:503-514 | a run in which a ready environment loses its image and is built again |
| EnvironmentBuilds.RevokedRebuilds | backend/app/routers/admin.py:417-424 | a run in which a revoked environment is built again |
| EnvironmentBuilds.RevokedIsFinal | backend/app/routers/admin.py:417-424 | a revoked environment is never built again, whatever happens, if and only if no job that read it as ready is still to write |
| Migration.FindFree | scripts/migrate_sqlite_to_postgres.py:145-164 | the counting loop ends with the first free name |
| Migration.UniqueVersion | scripts/migrate_sqlite_to_postgres.py:155-164 | a renamed version is the first free variant of its number without the build part, marked as legacy |
| Migration.Decide | scripts/migrate_sqlite_to_postgres.py:197-303 | an inserted row keeps everything but, for a version or an endpoint, its name, and other than an endpoint clashes with none |
| Migration.DecisionIsExact | scripts/migrate_sqlite_to_postgres.py:197-303 | the last row that matches decides: with the same content it is merged into, with other content the row is renamed, and only without any the row goes in as it is |
| Migration.VersionDecision | scripts/migrate_sqlite_to_postgres.py:242-258 | a version goes in under its own number exactly when that is free for its skill, is merged only into the same number with the same content, and is renamed, to a free number, only when its own is taken with other content |
| Migration.EndpointDecision | scripts/migrate_sqlite_to_postgres.py:278-302 | an endpoint goes in as it is, is merged or is renamed by the version that its folded slug stands for |
| Migration.StepOutcome | scripts/migrate_sqlite_to_postgres.py:197-303 | what placing a row changes: one entry of the key map, nothing, or one more row under its own key if that is free |
| Migration.Migrate | scripts/migrate_sqlite_to_postgres.py:191-358 | the merge table by table and row by row, aborted by an unknown reference or a taken endpoint slug |
| Migration.MergeIsHomomorphism | scripts/migrate_sqlite_to_postgres.py:191-358 | the target keeps its rows, keys stay unique, every source row is represented by the same thing or, for a version or an endpoint whose name another has taken, by itself under a new name, and every reference of an inserted row is the image of the row it named and resolves |
| Migration.EveryVersionIsFound | scripts/migrate_sqlite_to_postgres.py:226-258 | every source version is in the target, for the skill its own became and with its content, under its own number unless that skill has another version of that number |
| Migration.MergeSucceedsIff | scripts/migrate_sqlite_to_postgres.py:191-358 | the merge goes through if and only if the source is referentially intact and no endpoint of it, read off the slugs and their versions alone, is renamed to a taken slug |
| Migration.MetSlugIsEarlierOrUnfolded | scripts/migrate_sqlite_to_postgres.py:278-302 | a renamed slug is taken only because an earlier source row has it or the target has it in a spelling that folding changes |
| Migration.PlainSlugsNeverMeet | scripts/migrate_sqlite_to_postgres.py:278-302 | with folded target slugs and no source slug that is a renaming of a later one, none is ever taken |
| Migration.IntactMergeAborts | scripts/migrate_sqlite_to_postgres.py:294-302 | two intact databases whose merge is rejected |

## Left out

- JobAtMostOnce.AtMostOnceTurns: assumes no memory write that turns the job back and no skipped snapshot, because each of them alone lets a turn run twice (`JobReplays`).
- JobCheckpoints.PointerNamesObject: assumes that no outdated pointer is put back, publication within the sweep's grace period, and no attempt still running a full retention period after its job finished.
- JobCheckpoints.ReadyCheckpointLoads: takes a stored, unaltered object as loadable, which is `CheckpointBundle.RoundTrip`.
- JobRows.CleanupMissesHandovers: handover of a sandbox is modelled by its label only; its adoption and removal are not.
- JobFencing.LockedCommitIsCurrentIff: an attempt's heartbeats are made one after another on a clock that does not go back, so a stored expiry never moves back; a session loads the run only where the code refreshes it or rolls back.
- ContextProjection.DeduplicationFits: the encoded size of the state message is a sum of costs; how escaping makes a cost is followed for plain texts only.
- ObservationCache.CacheAgreesWithWorkspace: holds of careful runs only, because of finding 3; paths are absolute and normalised, a required reference is static package content, and readers that cannot measure the end of a file are not modelled.
- ReferenceShelf.RunIsBounded: which paths count as references is a parameter of the callers.
- PlanAcceptance.Accept: texts arrive trimmed and cut to their limits, a blank id or status counts as an omitted one, and the warnings about files not yet present are not returned.
- AgentPolicy.AgentExecutionState.RecordMutation: action counters, compact observations, failure diagnostics and progress signatures are not kept; they influence hints and stall limits only.
- TurnHistory.RunTurn: turns that raise or return end the conversation and are not followed further; which branch produced a result does not matter to it.
- Migration.MergeIsHomomorphism: audit events, whose references are mapped only when known, and copied storage paths are not part of the model; drawn keys are new.
- CheckpointBundle.RoundTrip: archive bytes enter as structured members and their sizes, escapes in encoded paths only as further bytes; digest and signature are functions, injective where a lemma says so.
- Migration.MergeSucceedsIff: the lengths of the target's columns are not modelled; a renamed slug or version that is too long also aborts the merge.
- Cancellation and status writes that follow an unlocked lease check are steps of `JobProtocol`, but nothing is claimed about who wins them.
- The job's steps, events, artifact rows, the fixed-entrypoint and lease-less execution paths, and the answer to a waiting job.
- Verifier retry limits, the observation-loop diagnosis, image and document inspection: counters and text only.
- Docker, HTTP, the ORM and the file system are abstract steps; JSON texts are structured values with abstract sizes.
