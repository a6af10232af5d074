# A model of the on-prem agent loop and the protocols around it

This project models the closed loop that lets three language-model roles change network policies, and the
protocols that observe, store, check and release what it does. Every collaborator that the code does not control
(models, observers, native readers, clocks, the database, the QER adapter, sockets, the admission service) is an
oracle: a function from the number of calls made so far to an answer. An answer may let the caller go on, raise inside
it, raise past its handler, or kill the process. All theorems are for every oracle.

## The agent loop

`AgentTypes` is everything that survives a crash: content-addressed artifacts, the tables keyed by cycle and attempt,
the checkpoint, the adapter's journal, and the history of native events. A reference `kind:digest` is modelled by the
value it names, because the digest is taken as injective. `AgentModel` gives each node, the exception handler, the
checkpoint after it, `graph.invoke`, the cleanup and `run` with its `finally` as functions of the oracle. `AgentLoop` is
`LangGraphAgentLoop` in its own form, an object whose methods write the tables as they go; each method is proved to have
exactly the effect of its function, and `Live` lives any number of invocations with such objects. A *life* of a thread
is any number of invocations, each with its own configuration and each ending normally, by an error or by the death of
the process.

`AgentInvariant` states what every reachable durable state satisfies, point by point of the program. `AgentFrames`,
`AgentWrites` and `AgentCommits` show that each durable write and each published checkpoint keeps it, `AgentSteps`,
`AgentChecks` and `AgentRuns` lift that to nodes, runs and lives, and `AgentTheorems`, `AgentTermination`, `AgentHistory`
and, for the independent verifier, `AgentAgreement` draw the conclusions. `AgentProgress` and `AgentPolicyCycle` show the
other direction, that a cycle is carried through while every collaborator answers, and `AgentWitness` builds from such
cycles the lives in which a stronger promise fails.

Two premises appear in them.

* `Quiet`: no collaborator raises `plan.unsupported_capability` or `plan.hold_has_policy_arguments`. Both are raised
  only by the planner's own proposal tool (`backend/onprem/agents/graph.py:288-292`), whose refusals are part of the
  model, and any other exception text or type becomes `graph.stage_failed` (`backend/onprem/agents/graph.py:878-886`). They
  are the only codes that make a node retry, and the keys `postcheck:`, `restore-check:` and `lesson:` do not contain the
  attempt, so a retry from after the execution would meet the snapshots of the first attempt. Termination, the exit
  obligation and the growth of the history are proved without this premise.
* `ValidRuns`: the configurations satisfy the bounds that the constructors of the contract and of the loop enforce
  (`backend/onprem/agents/graph.py:37-38`, `backend/onprem/agents/contracts.py:77-81`).

The adapter is modelled by what `backend/onprem/policy/group_qer.py` does: one record is journaled before the first
native write, a call is refused while any record is neither installed nor restored, and cleanup never puts a record back
in force, that is into intent, applying or installed.

Four stronger promises are false of the code. Each is stated with the exact condition and with an input at which it fails.

* The verifier wants one native inventory and a window of its own for every result. The loop compares inventories within
  a cycle and, at the end, the first with the last reading, and windows only by sequence: `RoundPassesVerifier`,
  `DriftEscapesTheLoop`.
* At most one record unrestored: a cleanup that does not complete may turn `restored` into `quarantined`
  (`backend/onprem/policy/group_qer.py:464-471`), and nothing else can: `OneOwner`, `TwoUnrestored`.
* The verifier wants a nonempty holdout, while the loop offers a cohort of one UE without a holdout: `CheckersAgree`,
  `LoneUeIsRejected`.
* The verifier judges an effect by fixed thresholds of 5 percent, while the loop uses those of its contract, which may
  be weaker: `EffectsAgree`, whose proof names the measurements for every weaker contract.

## The protocols around it

`HoldVerifier` is the independent re-check of a no-write round; `Cohort` the split into treatment and holdout;
`Readback` the comparison of native rules after an action, as the loop and as the verifier make it;
`StatePatch` the alias pairs of the graph state, with every patch the loop publishes; `Persistence` and `EventLog` the tables and the bounded log with its
cursor; `FormalGraph` the smaller compensation graph; `Reservation` the reservation, nonce and cleanup protocol of the
device smoke run; `AcceptanceGate` the evidence of a poll and the stable block of polls; `PollTracker` the capture
schedule; `Relay` the two copy threads of a relayed connection as a state machine over their steps; `ParallelReads` the
bounded fan-out; `LessonMemory` the three tables of lessons.

## Model

| member | source | states |
|---|---|---|
| AgentTheorems.ChangeBudget | backend/onprem/agents/graph.py:240-250 | over any number of runs, crashes and errors of one thread, the calls of the adapter's execute (refused, failed and replayed ones included) never exceed the change budget, and any two lie at least the minimum number of cycles apart; before a context is frozen there are none |
| AgentTheorems.WritesAtMostOnce | backend/onprem/agents/graph.py:815-824 | no cycle, and so no (cycle, proposal attempt), calls the adapter's execute twice over any life of a thread |
| AgentTheorems.RestoredBetweenWrites | backend/onprem/agents/graph.py:639-657 | between any two native writes an independent reading found exactly the inventory that the proof of the first had recorded: a different choice always goes through restoration and the equality check |
| AgentTheorems.OneOwner | backend/onprem/agents/graph.py:498-502 | in every reachable durable state at most one adapter record is in force: the newest, of the last write, which the checkpoint owns or has not counted yet; every older record reads restored unless a restoration called after the newest was journaled did not complete, and while nothing was called after a completed restoration all do |
| AgentWitness.TwoUnrestored | backend/onprem/policy/group_qer.py:464-471 | the exception is real: a policy is applied and undone, the next write breaks, and a cleanup that cannot account for the records leaves both quarantined |
| AgentTheorems.RestoreNamesOwner | backend/onprem/agents/graph.py:789-795 | a restore request always names the action that is owned, whatever the last executed decision was, and that action is the last write with its own baseline |
| AgentTheorems.ExitRestores | backend/onprem/agents/graph.py:902-958 | for any answers and any stored state: when run is left without its policy retained, the last native event is the adapter's restore, so nothing was written after it |
| AgentTheorems.RetainedIsVerified | backend/onprem/agents/graph.py:704-746 | retention needs the option, the cycle limit and no error; any record still in force is then the owned action, and the row of the final cycle is an effect_verified verdict about exactly that action |
| AgentTheorems.OutcomeLog | backend/onprem/agents/graph.py:659-702 | after any crash and replay schedule the log has exactly one row per finished cycle with iteration equal to its position, at most one for the unfinished one, none for it when the cycle limit or the end of the scenario stopped the run, and none beyond; a run stopped at its limit satisfies the verifier's stop test; no run ends with one of the codes for changed durable state, outcome_changed_on_replay among them |
| AgentAgreement.HoldsPassVerifier | scripts/onprem/verify_ai100_e2e.py:338-388 | every hold row the loop ever logs passes every reference, seal-age, sequence and inventory check of the independent verifier on its chain, under the verifier's own 120-second bound |
| AgentAgreement.RoundPassesVerifier | scripts/onprem/verify_ai100_e2e.py:336-388 | the verifier's outcome loop accepts everything a thread logged if and only if each cycle's precheck froze a fresh hold over the inventory that the first cycle's precheck froze, and the window frozen for its result is another one than that of its baseline |
| AgentWitness.DriftEscapesTheLoop | scripts/onprem/verify_ai100_e2e.py:380-386 | neither half of that condition is enforced by the loop: a family of lives that all end at their limit without an error, with two verified holds and a proved cleanup, is accepted by the verifier exactly when the second cycle read the first one's inventory and the results came from windows of their own |
| AgentAgreement.CleanupComparesWithFirst | backend/onprem/agents/graph.py:704-746 | what the loop does compare over a whole no-write round: a cleanup that answers has proved that the last native reading equals the inventory the first cycle's precheck froze |
| AgentProgress.HoldCycle | backend/onprem/agents/graph.py:763-864 | while every collaborator answers about the same rows and one inventory and the model asks for a hold, a cycle takes exactly four nodes and ends with a row that verified the hold over that inventory between its two readings |
| AgentPolicyCycle.PolicyCycle | backend/onprem/agents/graph.py:763-864 | while every collaborator answers, the model asks for an offered candidate and the effect is not verified, a cycle takes exactly six nodes, makes one native write, restores every record and logs its row |
| AgentTermination.RunsAreShort | backend/onprem/agents/graph.py:902-914 | after any history and with any answers and error codes, one invocation runs at most 12 nodes per cycle, and its recursion limit never takes effect: any limit of at least that many gives the same result |
| AgentTermination.QuietRunsAreShorter | backend/onprem/agents/graph.py:866-889 | when only the planner's own tool raises the two retryable codes, at most 7 nodes per cycle are run |
| AgentHistory.HistoryOnlyGrows | backend/onprem/agents/persistence.py:158-164 | no later invocation, crash or error takes back a native event or changes a logged row, for any answers |
| AgentRuns.LifeIsSound | backend/onprem/agents/graph.py:902-958 | the invariant behind these theorems (budget, ownership, references, frozen patches and the log) holds after every invocation, however it ended |
| AgentRuns.RunKeep | backend/onprem/agents/graph.py:924-958 | one whole invocation, cut off at any call, keeps the invariant |
| AgentRuns.StepKeep | backend/onprem/agents/graph.py:866-889 | one node with its exception handler and the checkpoint after it keeps the invariant; only a crash or an escaping error leaves the old checkpoint |
| AgentSteps.PlannerKeep | backend/onprem/agents/graph.py:763-787 | the planner, cut off at any write, keeps the invariant, and what it publishes satisfies the precheck's point |
| AgentSteps.PrecheckKeep | backend/onprem/agents/graph.py:826-843 | the precheck keeps the invariant; it publishes either a proved decision or a restore request for the owned action |
| AgentSteps.ReceiptKeep | backend/onprem/agents/graph.py:418-445 | however the apply tool gets its receipt, it is the receipt of this cycle's one write, and the baseline recorded for that write is the inventory of the proof |
| AgentSteps.AdoptedIsOwn | backend/onprem/agents/graph.py:425-433 | an installed record found by a replay that only has an intent is the record this cycle wrote |
| AgentSteps.ExecutorKeep | backend/onprem/agents/graph.py:797-824 | the executor, cut off at any write, keeps the invariant; its guards over its own durable state never fail |
| AgentChecks.HeldChain | backend/onprem/agents/graph.py:555-582 | the verdict of a confirmed hold satisfies the verifier's chain: plan, proof, confirmation, seal, readings and inventory |
| AgentChecks.PostcheckKeep | backend/onprem/agents/graph.py:844-852 | the postcheck keeps the invariant; an unverified effect publishes a restore request, any other verdict is learned |
| AgentChecks.RestoreCheckKeep | backend/onprem/agents/graph.py:853-858 | the restore check keeps the invariant, and gives up ownership only after the native inventory equalled the baseline |
| AgentCommits.CommitLearned | backend/onprem/agents/graph.py:858-864 | a learned cycle publishes the next cycle or the end exactly at the limit, with its row in the log |
| AgentCommits.CommitExecuted | backend/onprem/agents/graph.py:815-824 | only the executor's published patch counts the write and takes ownership of its action |
| AgentCommits.CommitFailed | backend/onprem/agents/graph.py:876-889 | a failed node publishes one retry of the proposal or the end, and loses no ownership |
| AgentWrites.InvWrote | backend/onprem/policy/group_qer.py:319-329 | one call of the adapter's execute adds at most one record, spends one change of the budget, and leaves the write pending until the checkpoint counts it |
| AgentFrames.InvCleaned | backend/onprem/policy/group_qer.py:452-474 | a cleanup of the adapter, complete or not, keeps every other fact of the invariant |
| AgentLoop.LangGraphAgentLoop.MatchRecords | backend/onprem/agents/graph.py:430-431 | the records of this model response and candidate, in journal order |
| AgentLoop.LangGraphAgentLoop.RunGraph | backend/onprem/agents/graph.py:939-943 | the loop over the nodes equals the specified invocation within the recursion limit |
| AgentLoop.Live | backend/onprem/agents/graph.py:902-958 | any number of invocations, each by an object that opens the tables its predecessor left: the object's own state is the life of the theorems, so its tables keep the change budget, single ownership, the exact log and the accepted hold chains, and whenever run was left without retaining its last native act was the restore |
| AgentLoop.LangGraphAgentLoop.RunLoop | backend/onprem/agents/graph.py:902-958 | run with its finally block equals the specified run, flags included, so the theorems above hold of the object |
| HoldVerifier.CheckHolds | scripts/onprem/verify_ai100_e2e.py:336-388 | the loop over the outcomes with its running inventory digest accepts exactly when every chain and window is accepted, one inventory is seen throughout and no cycle repeats |
| StatePatch.StatePatch | backend/onprem/agents/graph.py:748-761 | the loop over the five alias pairs equals its specification |
| StatePatch.PublishExact | backend/onprem/agents/graph.py:748-761 | a patch is published exactly when no pair clashes; it then keeps all it said, adds only missing partners, and both names of every pair agree |
| StatePatch.AliasesNeverChange | backend/onprem/agents/graph.py:763-889 | over any sequence of what the initial state, the nodes, the handlers and the closing update publish, with any values, every state a node reads is coherent and state_alias_changed is never raised |
| StatePatch.NodesPublish | backend/onprem/agents/graph.py:748-761 | the graph of the model, with one field for each pair, takes exactly the steps of the state with both names: every checkpoint a node publishes is the merge of one of those patches |
| Cohort.CommissionedCandidates | backend/onprem/agents/native_observation.py:104-125 | the two loops give exactly the specified candidates, or refuse the round |
| Cohort.RowOrderIrrelevant | backend/onprem/agents/native_observation.py:112-122 | permuting the rows never changes the candidate list or its refusal |
| Cohort.CandidateSplitsCohort | backend/onprem/agents/native_observation.py:113-122 | treatment and holdout are disjoint, together exactly the event's cohort, treatment is nonempty, and the sizes differ by at most one |
| Cohort.CandidateIdsUnique | backend/onprem/agents/native_observation.py:119-122 | no two candidates of a round share an identifier |
| Cohort.LoneUeIsRejected | scripts/onprem/verify_ai100_e2e.py:793-839 | a commissioned round with one UE: the loop offers and accepts its only candidate, and the verifier rejects it |
| Cohort.CheckersAgree | scripts/onprem/verify_ai100_e2e.py:793-839 | every candidate passes the loop's own validator, and passes the verifier's cohort tests if and only if the cohort has at least two UEs |
| Readback.ReadbackMeaning | scripts/onprem/verify_ai100_e2e.py:859-874 | the comparison of the sorted rule lists holds exactly when every rule is found again, with its detection rules and the expected rates, and nothing else is there, in whatever order either side lists them |
| Readback.ReadbacksAgree | backend/onprem/agents/validator.py:132-148 | the loop's validator accepts an installation exactly when the sessions are the same and the verifier reads it as installed; sorting before looking for the target makes no difference |
| Readback.NeverBoth | scripts/onprem/verify_ai100_e2e.py:856-874 | no read is both the installed and the baseline state of an action whose profile changes a treated rule |
| Readback.EffectsAgree | scripts/onprem/verify_ai100_e2e.py:896-935 | on the same relative changes the verifier confirms every effect the loop verified if and only if the contract's tolerance is at most 5 and its minimum at least 5 |
| Readback.Installation | backend/onprem/agents/validator.py:130-148 | the loop over the sessions accepts exactly an inventory of the same UEs with their sessions, one bounded rule each, and the expected rates everywhere |
| Readback.Matches | scripts/onprem/verify_ai100_e2e.py:859-874 | the loop over the baseline accepts exactly when every session matches |
| Persistence.GraphArtifacts.Put | backend/onprem/agents/persistence.py:46-51 | the reference alone determines what is stored under it; rows are only added, and only for this thread |
| Persistence.GraphArtifacts.Get | backend/onprem/agents/persistence.py:53-58 | a reference of another thread or never put is refused, any other yields its content |
| Persistence.GraphArtifacts.Operation | backend/onprem/agents/persistence.py:60-66 | an upsert of one key, and the stored value back; the only table whose rows may change |
| Persistence.GraphArtifacts.Freeze | backend/onprem/agents/persistence.py:68-79 | the first writer of a key wins for good, every caller gets the winner, and unusable keys are refused |
| Persistence.FreezeIsFirstWrite | backend/onprem/agents/persistence.py:68-79 | a freeze under the name of a key, in the table that all threads and kinds share, is the first write of the agent model in the table of that kind |
| Persistence.GraphArtifacts.Outcome | backend/onprem/agents/persistence.py:158-164 | a cycle's row is accepted exactly when none or the same one is stored, and never changes |
| EventLog.EventTables.Audit | backend/onprem/agents/persistence.py:103-113 | each thread keeps exactly its newest 10000 rows for any interleaving of threads, ordinals are never reused, and the watermark is the newest lost row |
| EventLog.EventTables.ReadEvents | backend/onprem/agents/persistence.py:115-156 | the page is the first rows after the cursor among the retained ones, and the gap is set exactly when a row of the thread after the cursor was lost |
| EventLog.GapMeaning | backend/onprem/agents/persistence.py:152-154 | the watermark test is equivalent to the loss of some row after the cursor |
| EventLog.PageIsNext | backend/onprem/agents/persistence.py:142-154 | without a gap, a page is the next stretch of everything the thread ever wrote |
| EventLog.FollowingYieldsAll | backend/onprem/agents/persistence.py:115-156 | following the cursor across concurrent appends without a gap yields every later row that is wanted, once and in order, and all of them when the last page has no more |
| EventLog.PruneRetains | backend/onprem/agents/persistence.py:105-112 | when a thread is full exactly its oldest retained row goes, and other threads keep theirs |
| FormalGraph.FormalIntentGraph.RunSync | backend/onprem/agents/graph.py:976-1156 | every run visits at most six nodes, and its service calls have the form of exactly one ending, or of an escape |
| FormalGraph.FormalIntentGraph.Port | backend/onprem/agents/graph.py:993-1032 | the bound operation starts at most once; only the restore handler also runs when the model failed before starting it |
| FormalGraph.FormalIntentGraph.PlannerNode | backend/onprem/agents/graph.py:1055-1077 | the planner's calls and where each outcome leads |
| FormalGraph.FormalIntentGraph.ExecutorNode | backend/onprem/agents/graph.py:1078-1088 | the executor's calls and where each outcome leads |
| FormalGraph.FormalIntentGraph.ValidatorNode | backend/onprem/agents/graph.py:1089-1148 | the validator's calls by phase and where each outcome leads |
| FormalGraph.CallCounts | backend/onprem/agents/graph.py:1055-1148 | the plan is executed at most once and only after its precheck returned; the compensation runs exactly once in the measurement and restored endings, never without a plan or with a verified effect, and at most once in an escape |
| FormalGraph.EndingsAreDistinct | backend/onprem/agents/graph.py:1055-1148 | the calls of a run that did not raise determine its ending |
| Reservation.SmokeRun.Run | scripts/onprem/free_ran_device_smoke.py:525-611 | with a failure possible at every await the history is safe, consecutive outcomes share no nonce, session key or Pod UID, every outcome was reported after a native zero, and a consumed reservation went to stop_owned or is retained |
| Reservation.ReleaseIsEvidenced | scripts/onprem/free_ran_device_smoke.py:598-607 | before a reservation is released, every nonce attempted for it was later found absent or had its admission released |
| Reservation.SmokeRun.ReserveAfterNativeReady | scripts/onprem/free_ran_device_smoke.py:199-219 | however its attempts end, the retry loop commits at most one reservation, and a returned one is the one committed |
| Reservation.SmokeRun.InstallOne | scripts/onprem/free_ran_device_smoke.py:545-553 | an attempted nonce is either known by its handle or still the pending one |
| Reservation.SmokeRun.StopOwned | scripts/onprem/free_ran_device_smoke.py:222-248 | success means every pending registration was released and an independent native zero was read |
| Reservation.SmokeRun.ConsumeAndAttach | scripts/onprem/free_ran_device_smoke.py:554-566 | a failed request may still have consumed the reservation; only a returned one sets the flag |
| Reservation.SmokeRun.Cycle | scripts/onprem/free_ran_device_smoke.py:530-578 | a cycle that raises anywhere leaves variables that the finally block can rely on |
| Reservation.SmokeRun.ReleaseHeld | scripts/onprem/free_ran_device_smoke.py:598-607 | an unconsumed reservation is released only when every attempt is known and cleared |
| Reservation.SmokeRun.Finally | scripts/onprem/free_ran_device_smoke.py:585-611 | a consumption found in the ledger goes to stop_owned, unless the ledger cannot be read or has changed |
| AcceptanceGate.EvidenceErrors | scripts/onprem/run_ue_acceptance.py:89-176 | no error exactly when every condition on the round, its slices and each record holds, SUPIs, addresses and interfaces are pairwise distinct, and the per-slice counts are the desired ones |
| AcceptanceGate.RecordErrors | scripts/onprem/run_ue_acceptance.py:130-176 | the single pass with its running sets equals the pairwise condition |
| AcceptanceGate.HeaderErrors | scripts/onprem/run_ue_acceptance.py:95-126 | no error exactly when the round and all four slices hold |
| AcceptanceGate.DistributionExact | scripts/onprem/run_ue_acceptance.py:84-86 | all UEs are placed, and no slice gets two more than another |
| AcceptanceGate.RunGate | scripts/onprem/run_ue_acceptance.py:217-242 | a gate passes if and only if some block of its polls was clean, continuous and at least 60 monotonic seconds long; otherwise it ends superseded, failed or at the deadline |
| AcceptanceGate.BlockIsContinuous | scripts/onprem/run_ue_acceptance.py:52-58 | in such a block observation times never go back and neighbours are at most 15 seconds apart |
| PollTracker.SummaryPollTracker.Plan | scripts/onprem/calibration_polling.py:68-92 | a poll is rejected exactly when it is malformed, foreign or goes back in sequence or time, and then changes nothing; an accepted one is decided by the history alone |
| PollTracker.CapturedOnce | scripts/onprem/calibration_polling.py:82-85 | at most one failure and one cleanup capture in any history |
| PollTracker.ResultsAdvance | scripts/onprem/calibration_polling.py:86-91 | result captures have strictly increasing sequences and come at least 0.5 seconds after every earlier full capture |
| PollTracker.ResultsBounded | scripts/onprem/calibration_polling.py:86-89 | at most three result captures, each of its own sequence |
| PollTracker.ChangesAreSaved | scripts/onprem/calibration_polling.py:74-78 | every change of sequence or stage is saved, and a poll not saved is within the heartbeat of one that was |
| Relay.StreamIntegrity | scripts/onprem/forward_native_service.py:69-89 | in every interleaving what is delivered is a prefix of what was received, and all of it after a half-close |
| Relay.CleanCompletion | scripts/onprem/forward_native_service.py:127-147 | two clean copies delivered everything both ways, and both ends were closed |
| Relay.ConnectsFirst | scripts/onprem/forward_native_service.py:91-125 | no client byte is read before upstream is connected, and there are at most three connects |
| Relay.OneReport | scripts/onprem/forward_native_service.py:60-67 | at most one failure is reported, a recorded one is reported once, and the sockets are torn down only after one was recorded |
| Relay.CopyProgresses | scripts/onprem/forward_native_service.py:69-89 | every step of a copy other than reading more brings it nearer to its end, and leaves the other alone |
| Relay.ConnectUpstream | scripts/onprem/forward_native_service.py:91-125 | the loop succeeds exactly when one of the first three attempts connects in time after only retryable failures |
| ParallelReads.RefinesSequential | backend/onprem/agents/tool_execution.py:27-50 | for every schedule within the concurrency bound that drains, each call ran exactly once and the answer is that of running the calls in order |
| ParallelReads.AlwaysDrains | backend/onprem/agents/tool_execution.py:43-45 | with room for at least one read, every schedule that was possible so far can be continued until every call has drained |
| ParallelReads.NeverMoreThanK | backend/onprem/agents/tool_execution.py:43-45 | no schedule has more than k reads in flight or runs one twice |
| ParallelReads.SortedIsOriginal | backend/onprem/agents/tool_execution.py:46-46 | sorting the completed rows recovers the calls in their original order |
| ParallelReads.FanIn | backend/onprem/agents/tool_execution.py:46-50 | the loop raises the first error in order, and otherwise returns the results in order |
| LessonMemory.ValidatedMemory.Record | backend/onprem/agents/memory.py:46-82 | one transaction: accepted exactly for bounded values that repeat or add a row with the frozen revision; a refusal leaves all three tables as they were |
| LessonMemory.RecordedIsConsistent | backend/onprem/agents/memory.py:60-82 | in every reachable database each lesson has its one context row, fixed by its digest, and a summary row exactly when its contract has a revision |
| LessonMemory.SearchIsExact | backend/onprem/agents/memory.py:100-106 | the joins find every lesson of the context in exactly one row and nothing else, with a summary exactly when there is a revision |

## Left out

- Prompts, tool schemas, role turns, LangGraph and LangSmith internals and tracing: a role call is one oracle answer, and the runtime is "checkpoint after each node".
- Audit events, tool evidence and display artifacts of the loop: they carry no protocol state. A failing audit write is a draw that raises.
- Inside the agent loop the verdicts of `validator.effect` and of the installation check are oracle answers; `Readback` states their content on values, without the receipt fields of the installation check and the group means of the effect.
- Readback.EffectsAgree: takes the two relative changes as given, on the metric and the direction that both sides measure; the windows each side averages over are not compared.
- Error codes of one call that lead to the same end are merged into `graph.stage_failed`; the guards over durable state keep their own codes.
- Aliasing between the dictionaries that the nodes pass around: states are values, and each alias pair is one field (`StatePatch.NodesPublish` shows that nothing is lost).
- SQL text, file modes, path checks, JSON encoding and hashing; digests are injective.
- AgentAgreement.RoundPassesVerifier: does not cover the verifier's event list, its native read receipts and the uniqueness of the hold_cleanup artifact, because they come from channels outside the loop's own tables; of a measurement's published window only its identity is kept.
- HoldVerifier.CheckHolds: the same parts of the verifier's function are left out here.
- AgentSteps.ReceiptKeep: there is no state of the native network; the baseline of a write is the reading of its proof, and the adapter's own baseline reading is part of its answer.
- AgentTheorems.RetainedIsVerified: if publishing the final checkpoint fails after retention was decided, no restore follows; the exit theorem excludes exactly that case.
- EventLog.EventTables.ReadEvents: the gap is exact for the thread's rows; with a filter it may be set although no wanted row was lost.
- LessonMemory.SearchIsExact: the ordering and the LIMIT of search and recent.
- `join_full_boundary`: only that its stages exclude each other is proved, not each of its checks.
- FormalGraph.FormalIntentGraph.RunSync: an artifact or journal write that fails outside a port escapes without compensation, as in the code; recovery by the operation journal is not part of this model.
- Reservation.SmokeRun.Run: profile, geography and receiver evidence are one answer per await, several awaits in a row are one where nothing is recorded between them, and the ledger is read faithfully.
- AcceptanceGate.RunGate: the clock is assumed monotonic and each turn to sleep at least the poll interval; submission of a gate and the sequence of gates are not modelled.
- Relay.OneReport: what the server's own error hook prints for an exception that is not an OSError, and socket timeouts.
- The constrained track of the end-to-end verifier, the attempt times and window choice of its effect track, the browser scripts, the intent service and the frontend.
- Operator one-offs with pinned constants, and recovery-only entry points of the smoke run.
