# Sulcus agent runtime: a verified model

This project models the self-contained state machines of the agent runtime and the small compiler
beside them, and proves what they promise over whole runs. `dafny verify dfyconfig.toml` checks it.

| files | component |
|---|---|
| `PySource`, `Wasm`, `Toolchain`, `ToolchainCorrect`, `ToolchainValid`, `ToolchainDeadCode` | the micro-compiler from a Python subset to WebAssembly structured control, a semantics of both sides, correctness and validity of the emitted code, and what it does with statements after a `return` |
| `LlmTypes`, `ToolLoop`, `ToolLoopProofs`, `ToolLoopPausing`, `ToolLoopObject` | the bounded LLM, tool, LLM loop with permissions, counters, sequential and parallel groups, approval pauses and resumes |
| `Supervision`, `SupervisionKill`, `SupervisionRecovery`, `SupervisionOrder`, `SupervisionRuns`, `SupervisionNames`, `SupervisionObject`, `RestartBudget` | the process registry: the process forest under any interleaving, recursive kill, crash recovery by strategy, operator kill, whole runs of operations, ownership of names, the sliding-window restart budget |
| `CheckpointClaim`, `SortedSets`, `CheckpointCodec`, `CheckpointSecrets`, `CheckpointResume` | claiming a checkpoint file between concurrent resumers, the JSON codec, the secret filter, and what a resume from disk keeps |
| `MemoryStore`, `MemoryTiers`, `MemoryRecall`, `MemoryStoreObject` | the hot/warm/cold store, refined to one flat set of records and to its log |
| `PageTable` | the native page table and its cached token count |
| `LlmStreaming`, `LlmBudget`, `LlmRuntimeObject` | retries inside fallbacks, streams, the usage ledger under a strict budget |
| `ArgumentValidator` | tool-argument validation as a mutual recursion over schemas and values |

Code that computes by recursion is modelled by functions. Code that changes things step by step is a
class whose methods carry the program's loops and field updates (`AgentCodeCompiler`,
`ToolResourceLimitState`, `AgentToolLoop`, `ProcessRegistry`, `Budget`, `PersistentMemoryManager`,
`AgentPageTable`, `LLMRuntime`); each method is proved equal to a specification function, and the
theorems are about those functions. Concurrency is a state machine over the lock-protected sections
(registry) or over single file operations (checkpoints). The LLM, tools, providers, clocks, random
identifiers, digests and regular expressions are parameters, so every theorem holds for all of them.
Floating-point operations of the compiler are one abstract interpretation shared by the source and the
target; the target follows sections 3.3.5, 4.4.1 and 4.4.5 of the WebAssembly Core Specification 1.0.

## What the proofs found

The code is followed where it differs from what one would expect. Each point is a lemma; where a property
fails, the exact condition under which it holds is one too.

- Code after a `return` is still executed by the emitted function: the source returns, the accepted and valid
  output may loop forever (`DeadCodeStillRuns`). The emitted function agrees with the source on an input exactly
  when the statements after the `return` end there and leave the variables unchanged (`DeadCodeHarmlessIff`).
- A run that pauses and gets everything approved ends like the unpaused one exactly when the latter does not run
  into `max_steps` and the LLM answers its requests after the first pause alike under the default options
  (`PausingIsTransparent`). On the last allowed round the unpaused run never runs the requested tools while the
  paused one does, although both report `max_steps_exceeded` (`LastRoundDiffers`); and `resume` goes on with the
  default LLM options whatever the caller chose, which some LLM always notices (`OptionsAreDropped`).
- one_for_all restarts the older siblings before the crashed child, which keeps its slot while they move to the
  end; the original order survives exactly when the crashed child was the first (`OneForAllKeepsOrder`).
- Two overlapping kills of one process each drop its name, the second possibly that of a newcomer
  (`OverlappingKillsDropName`). Live processes own their names throughout a schedule exactly when no cleanup or
  closing section of a kill runs while another live process holds the name it drops (`NamesOwnedIff`).
- The 70 % eviction target of the memory store never takes effect: eviction stops at the budget (`TargetNeverMatters`).
- A negative recall limit returns nothing but still marks records as accessed; records touched and records
  returned are the same exactly when the limit is nonnegative or no more records than its absolute value match
  (`TouchedAreReturnedIff`).
- A restart of the memory manager keeps the cold records only (`RestartKeepsCold`).
- A checkpoint can be saved exactly when it has pending approvals, no response reports usage and every supplied
  key and string passes the secret filter (`SavedIff`): usage is refused because its field names contain "token"
  (`UsageIsRefused`), and tool names and per-tool limits count as keys.
- The saved history loses the call metadata, so after a resume from disk the history protocol of the tool loop no
  longer holds (`HistoryNotSettledAfterReload`).
- The budget of a stream is checked when it is opened, against the ledger alone. Completion usage stays within the
  limit exactly when every accepted opening fits beside the streams still open (`StreamsWithinIff`); the check
  lets one through that does not exactly when it would fit on its own (`CheckMissesIff`).

## Model

| member | source | states |
|---|---|---|
| ToolchainCorrect.CompilerCorrect | kernel/toolchain.py:86-250 | for every accepted function of assignments and nested `while` loops with a tail `return` or `if`/`else` of returns, every interpretation of f32 and all arguments, the emitted function returns value `v` with final variables `env` if and only if the source does |
| ToolchainCorrect.SameResult | kernel/toolchain.py:55-84 | source and emitted function run in lockstep: with equal fuel both return the same value and variables or both run out; the code never traps and the source is never stuck |
| ToolchainCorrect.BodyLockstep | kernel/toolchain.py:86-104 | the emitted body ends with exactly the returned number on the stack, for any known variables |
| ToolchainCorrect.LoopCorrect | kernel/toolchain.py:106-133 | the block/loop/`br_if 1`/`br 0` shape leaves its block exactly when the source loop ends, with the same variables and an unwound stack |
| ToolchainCorrect.BodyCorrect | kernel/toolchain.py:112-133 | a loop body reaches its closing `br 0` with the source's variables, whatever it left on the stack |
| ToolchainCorrect.ExprCorrect | kernel/toolchain.py:186-231 | compiled expressions push exactly the value the source expression denotes, on top of any stack and before any code |
| ToolchainCorrect.TestCorrect | kernel/toolchain.py:233-250 | a compiled comparison pushes 1 when the source condition holds and 0 otherwise |
| PySource.FuelMonotone | kernel/toolchain.py:106-133 | more fuel never changes a source run that finished, so the fuelled semantics defines one outcome |
| Wasm.FuelMonotone | kernel/toolchain.py:120-133 | the same for runs of emitted code |
| ToolchainValid.ValidIff | kernel/toolchain.py:76-104 | the body of an accepted function validates with result f32 if and only if exactly one top-level statement leaves a value and no comparison stands where a number is expected |
| ToolchainValid.LoopTypes | kernel/toolchain.py:106-133 | a lowered loop validates, labels included, if and only if no comparison in it is used as a number; values left by its body are discarded by `br 0` |
| ToolchainValid.ExprTypes | kernel/toolchain.py:186-250 | typing of every compiled expression, including the failing ones |
| ToolchainValid.OnlyDeclaredVariables | kernel/toolchain.py:252-282 | valid or not, every `local.get` and `local.set` names a declared parameter or local |
| ToolchainValid.DeadCodeStillRuns | kernel/toolchain.py:76-104 | an accepted, valid function whose source returns 1 and whose code runs out of any fuel |
| ToolchainDeadCode.DeadCodeRuns | kernel/toolchain.py:76-104 | for every accepted, valid function that returns at any position, the emitted function returns `v` with final variables `env` if and only if the source returns `v` and the statements after the `return`, run from the variables it had there, end in `env` |
| ToolchainDeadCode.DeadCodeHarmlessIff | kernel/toolchain.py:76-104 | source and emitted function agree on an input, in value, variables and whether they return, if and only if those trailing statements end there and leave the variables unchanged |
| ToolchainDeadCode.ValidReturns | kernel/toolchain.py:86-104 | in an accepted, valid function that returns at a position, everything else is assignments and loops |
| ToolchainDeadCode.DeadLockstep | kernel/toolchain.py:86-104 | with equal fuel the code runs the source up to the `return`, keeps the value on the stack and runs the rest |
| Toolchain.AgentCodeCompiler.CollectLocalNames | kernel/toolchain.py:252-272 | the loop finds exactly the assigned names that are no parameters, or raises exactly when the analysis does |
| Toolchain.AgentCodeCompiler.CompileWhile | kernel/toolchain.py:106-133 | the loop over the body emits exactly the specified code or raises |
| Toolchain.AgentCodeCompiler.VisitFunctionDef | kernel/toolchain.py:55-84 | on success one function is appended and the context cleared, on failure the functions stay as they were |
| ToolLoopProofs.HistoryProtocol | kernel/agent_tool_loop.py:1046-1100 | across any chain of resumes, every history sent answers each assistant message with tool calls by exactly one tool message per call, in order, with matching ids, before anything else |
| ToolLoopProofs.EveryRequestIsSettled | kernel/agent_tool_loop.py:416-570 | the same from the start of a run with complete initial messages |
| ToolLoopProofs.RoundSettles | kernel/agent_tool_loop.py:1794-1820 | an assistant message followed by the outcomes of its whole group extends a settled history |
| ToolLoopProofs.PauseConsistent | kernel/agent_tool_loop.py:757-847 | every pause makes a checkpoint whose open calls are exactly covered by its pending approvals |
| ToolLoopProofs.SessionWithin | kernel/agent_tool_loop.py:1046-1100 | one resume after the other keeps executed calls within every limit and permitted and charges each requested call at most once, in all, per tool and per round; with approval on, every newly executed call was approved by the accepted submission that resumed its own round |
| ToolLoopProofs.LimitsHold | kernel/agent_tool_loop.py:326-387 | over a run and all its resumes, for every round and tool: executed calls never exceed the per-loop, per-round and per-tool limits and are permitted; no more calls are charged in all, of the tool and in the round than the LLM asked for, with one response per round; at most `max_steps` requests are made; with approval on every executed call was approved by the one accepted submission of its round, rejected and partial ones counting for nothing |
| ToolLoopProofs.RoundsIncrease | kernel/agent_tool_loop.py:1046-1100 | accepted submissions decide strictly later rounds one after the other, so a round is decided once |
| ToolLoopProofs.SessionLog | kernel/agent_tool_loop.py:849-1044 | through any chain of resumes the log holds at most one LLM response per round |
| ToolLoopProofs.GroupCharges | kernel/agent_tool_loop.py:1102-1193 | a group charges each of its calls at most once, in all, per tool and in its own round only |
| ToolLoopProofs.PreflightCharges | kernel/agent_tool_loop.py:718-757 | so does the screening |
| ToolLoopProofs.GroupWithin | kernel/agent_tool_loop.py:1102-1193 | a group keeps executed calls within the limits and permitted, and counts no more calls than it has |
| ToolLoopProofs.PreflightWithin | kernel/agent_tool_loop.py:718-757 | the pre-approval screening charges every call once and leaves open only calls that the limits and the policy would let run |
| ToolLoopProofs.ApprovedWithin | kernel/agent_tool_loop.py:1212-1277 | only open calls with an approving decision run, never more than were open |
| ToolLoopProofs.StoppedIsPrefix | kernel/agent_tool_loop.py:1102-1193 | stopping on errors yields exactly the prefix of the full outcome list up to and including the first failure |
| ToolLoopProofs.ApprovedMatchesGroup | kernel/agent_tool_loop.py:1212-1277 | screening a group, pausing and approving everything gives the outcomes, counters and executed calls of the unpaused group |
| ToolLoopProofs.RefusedMatchesGroup | kernel/agent_tool_loop.py:718-757 | when screening refuses every call, its outcomes are the group's and nothing runs |
| ToolLoopPausing.PausedRound | kernel/agent_tool_loop.py:849-1044 | from related states and under default options, the unpaused rest of a run and the paused and fully approved rest end alike, or the former ended on its last round and the latter went further |
| ToolLoopPausing.PausingIsTransparent | kernel/agent_tool_loop.py:718-931 | without stopping on errors, with unchanged tools and for any LLM options: a run that pauses every round and gets all calls approved has the same reason, response, results, history, counters, requests, executed calls and log without approval steps as the unpaused run, if and only if the latter ends "completed" or "llm_error" and its requests after the first pause are answered alike under the default options |
| ToolLoopPausing.AfterPause | kernel/agent_tool_loop.py:1046-1100 | the same from the state after a pause on, where every later request has to be answered alike |
| ToolLoopPausing.LastRoundDiffers | kernel/agent_tool_loop.py:832-847 | under default options, the paused run goes further than the unpaused one, with a strictly longer history and the same reported reason, if and only if the latter does not end "completed" or "llm_error" |
| ToolLoopPausing.OptionsAreDropped | kernel/agent_tool_loop.py:1098-1100 | for every choice of options other than the default there is an LLM for which the paused run ends differently |
| ToolLoopObject.ToolResourceLimitState.RecordRequested | kernel/agent_tool_loop.py:326-370 | counts the call in all three counters, then reports the first limit exceeded |
| ToolLoopObject.AgentToolLoop.Screen | kernel/agent_tool_loop.py:1118-1160 | a call is charged, then refused by policy or limit, or let through |
| ToolLoopObject.AgentToolLoop.ExecuteToolGroup | kernel/agent_tool_loop.py:1102-1193 | the sequential loop computes the specified outcomes, counters and executed calls |
| ToolLoopObject.AgentToolLoop.PreflightGroup | kernel/agent_tool_loop.py:718-757 | the screening loop computes the specified slots and counters |
| ToolLoopObject.AgentToolLoop.RunConcurrently | kernel/agent_tool_loop.py:1340-1389 | whatever the completion order, each slot gets the outcome of its own call |
| ToolLoopObject.AgentToolLoop.ExecuteToolGroupParallel | kernel/agent_tool_loop.py:1279-1389 | in any completion order the parallel group returns the outcome list and counters of the sequential group that does not stop |
| ToolLoopObject.FilledIsGroup | kernel/agent_tool_loop.py:1279-1389 | slots filled pointwise after screening are the sequential group's outcomes |
| ToolLoopObject.AgentToolLoop.ExecuteApprovedToolGroup | kernel/agent_tool_loop.py:1212-1277 | denied, refused and approved calls get the specified outcomes in both execution modes |
| ToolLoopObject.AgentToolLoop.RunInOrder | kernel/agent_tool_loop.py:1250-1277 | running approved slots in order stops after the first failure when asked to |
| ToolLoopObject.ApprovedAt | kernel/agent_tool_loop.py:1228-1252 | approved slots filled pointwise are the specified outcomes of a group that does not stop |
| ToolLoopObject.StoppedRest | kernel/agent_tool_loop.py:1250-1277 | after a stop, approved calls stay open and denials stand |
| ToolLoopObject.AgentToolLoop.RunPlainGroup | kernel/agent_tool_loop.py:849-912 | the mode the calls allow is chosen, and parallel groups never stop early |
| ToolLoopObject.AgentToolLoop.RunRounds | kernel/agent_tool_loop.py:497-1044 | the mutable round loop returns exactly the specified result |
| ToolLoopObject.AgentToolLoop.Run | kernel/agent_tool_loop.py:416-570 | a run offers the given tools and starts with zero counters |
| ToolLoopObject.AgentToolLoop.Resume | kernel/agent_tool_loop.py:1046-1100 | for any checkpoint at all: rejected and partial submissions change nothing, a full one consumes the checkpoint and continues the specified run, and the slots a damaged checkpoint leaves undecided end it as the source does |
| ToolLoopObject.AgentToolLoop.FinishResumed | kernel/agent_tool_loop.py:497-570 | the resumed round is closed and the rounds after it run as specified |
| Supervision.ReachableForest | kernel/process.py:1194-1436 | in every reachable state child lists are duplicate-free and point back, parents have smaller pids, every name points to a record of that name, and pids are never reused |
| Supervision.StepKeepsForest | kernel/process.py:791-858 | every single lock-protected section keeps the forest |
| Supervision.StepKeepsNames | kernel/process.py:1506-1509 | every section keeps names pointing to records of that name, drops no record and allocates fresh pids only |
| Supervision.ChildListsDisjoint | kernel/process.py:1417-1442 | after any schedule from the empty registry no process is listed by two parents |
| Supervision.TreeDepth | kernel/process.py:1547-1558 | terminates on any parent pointers, cyclic ones included, and is the number of ancestors on a forest |
| SupervisionKill.KillIsBulk | kernel/process.py:791-858 | the recursion over child lists kills exactly the live processes below the target along parent pointers, frees their names, drops the target from its parent's list and touches nothing else |
| SupervisionKill.KillAllIsBulk | kernel/process.py:809-811 | the same for a list of targets killed one after the other |
| SupervisionKill.NoLiveDescendant | kernel/process.py:791-858 | after a kill no live process is below the target and the registry is calm |
| SupervisionKill.OverlappingKillsDropName | kernel/process.py:834-837 | a schedule of two overlapping kills after which a live process does not own its name |
| SupervisionNames.StepOwnsIff | kernel/process.py:834-837 | where every live process owns its name, an enabled section keeps that if and only if it meets its guard: nobody live holds the name a cleanup drops, nobody live but the target the name the close of a kill drops, and an ended process returns to life only with its name |
| SupervisionNames.NamesOwnedIff | kernel/process.py:791-858 | over every schedule, live processes own their names at every point if and only if every section that happens meets its guard |
| SupervisionRecovery.RecoverAll | kernel/process.py:1247-1289 | the restart loop replaces every ready child once, in order, with consecutive pids, and leaves the other listed children alone |
| SupervisionRecovery.RestartEffect | kernel/process.py:1331-1350 | a restart rewrites one child list, adds one record and binds one name, and changes nothing else |
| SupervisionRecovery.KillOneChild | kernel/process.py:1261-1264 | killing a sibling frees its name and leaves the rest of the supervisor's family as it was |
| SupervisionOrder.RecoveryConserves | kernel/process.py:1208-1289 | when one child ends and the affected ones are eligible, each affected child has exactly one replacement carrying its path, policy and count on, no old pid stays listed, other children are untouched, and the supervisor's list is the strategy's |
| SupervisionOrder.ListsByStrategy | kernel/process.py:1302-1310 | one_for_one and rest_for_one keep positions; one_for_all puts the crashed child's replacement first |
| SupervisionOrder.OneForAllKeepsOrder | kernel/process.py:1302-1310 | one_for_all keeps the original order if and only if the crashed child was the first |
| SupervisionOrder.NotAdmittedDrops | kernel/process.py:1226-1244 | without budget the ended child leaves the list and no sibling is touched |
| SupervisionOrder.OperatorKillKeepsSlot | kernel/process.py:791-858 | an operator's kill of a live child leaves its whole subtree dead and one replacement in its very slot |
| SupervisionOrder.KilledInPlace | kernel/process.py:834-837 | right before that restart the subtree is dead and its names free, but the target still stands in its parent's unchanged list |
| SupervisionRuns.RunsStayCalm | kernel/process.py:602-858 | from the empty registry, any sequence of non-overlapping starts, kills, operator kills and process ends with their handling keeps the registry calm: every live process owns its name and its parent is live and lists it |
| SupervisionRuns.RunThenKill | kernel/process.py:791-858 | hence after any such run a kill leaves no live process below its target |
| SupervisionRuns.HandleCalm | kernel/process.py:1208-1300 | handling an ended process makes the registry calm again, admitted or not, with or without a parent |
| SupervisionRuns.RecoverCalm | kernel/process.py:1247-1289 | so does the restart loop wherever it stops |
| SupervisionRuns.InPlaceCalm | kernel/process.py:791-837 | and a kill that leaves its target in the slot |
| RestartBudget.RestartRate | kernel/process.py:1319-1329 | over any run with a monotone clock, no closed interval of the window's length holds more than `max_restarts` admitted restarts |
| RestartBudget.HistoryIsRecentLog | kernel/process.py:1319-1329 | the pruned history is the full log of admissions cut at the last check |
| RestartBudget.Budget.RestartBudgetAllows | kernel/process.py:1319-1324 | the pruning loop keeps exactly the recent entries and compares their number |
| RestartBudget.Budget.RecordRestartAttempts | kernel/process.py:1326-1329 | every interval that contains the moment gains exactly the admitted attempts, every other one nothing |
| RestartBudget.Budget.Handle | kernel/process.py:1230-1245 | a check followed by a recording extends the history of the run by one request |
| SupervisionObject.ProcessRegistry.RunPath | kernel/process.py:602-672 | starts and links a process exactly when its path loads, the parent runs, the name is free and its registrations succeed; a failed registration uses a pid up, every other failure changes nothing |
| SupervisionObject.ProcessRegistry.LinkChild | kernel/process.py:1417-1425 | links both ways, the child at most once |
| SupervisionObject.ProcessRegistry.UnlinkChild | kernel/process.py:1436-1442 | unlinks both ways |
| SupervisionObject.ProcessRegistry.StopProcess | kernel/process.py:791-837 | the common part of every kill, recursion over the child list included |
| SupervisionObject.ProcessRegistry.Kill | kernel/process.py:791-854 | `auto_restart=False`: raises exactly on unknown or terminal processes, else has the specified effect |
| SupervisionObject.ProcessRegistry.KillListed | kernel/process.py:809-811 | kills a snapshot of children, ignoring the terminal ones |
| SupervisionObject.ProcessRegistry.KillAndRestart | kernel/process.py:791-857 | `auto_restart=True`: in-place restart under a running supervisor, plain unlink otherwise |
| SupervisionObject.ProcessRegistry.RestartChildNow | kernel/process.py:1331-1350 | the replacement takes the old slot and the list is deduplicated |
| SupervisionObject.ProcessRegistry.RecoverChildren | kernel/process.py:1247-1279 | the restart loop stops when the supervisor is gone, the child was unlinked or a restart fails |
| SupervisionObject.ProcessRegistry.OrphanChildren | kernel/process.py:1295-1300 | children of an ended process lose their parent and its list is cleared |
| SupervisionObject.ProcessRegistry.HandleTerminalProcess | kernel/process.py:1208-1289 | the handler has the specified effect, and consults and charges the budget only when there is somebody to restart |
| CheckpointClaim.AtMostOneConsumer | agentos/checkpoints.py:110-157 | in every interleaving of any number of resumers and crashes at most one holds the claim or has returned; the file is at exactly one place, away from its path exactly while someone owns it |
| CheckpointClaim.ExceptionRestores | agentos/checkpoints.py:133-139 | a holder that ends with an exception leaves the file at its path |
| CheckpointClaim.ReturnIsFinal | agentos/checkpoints.py:122-139 | after one normal return nobody ever owns the claim again |
| CheckpointCodec.RoundTrip | agentos/checkpoints.py:47-94 | what save wrote, load accepts if and only if tool names are distinct, ids and preflight list valid and the creation time acceptable; it then returns the original without message, call and response metadata, marked persistent |
| CheckpointCodec.PayloadTrip | agentos/checkpoints.py:202-243 | decoding an encoded checkpoint gives the checkpoint with metadata erased, over all nested types |
| CheckpointCodec.Reserialised | agentos/checkpoints.py:202-223 | encoding the loaded checkpoint again gives the same payload |
| CheckpointCodec.TamperingIsRefused | agentos/checkpoints.py:171-172 | once a checkpoint is saved, a document that carries its digest, whatever else is changed in it, is loaded only if it is that very document and then gives the original back, unless the two payloads share a digest |
| CheckpointCodec.FingerprintKeys | agentos/checkpoints.py:177-186 | the fingerprint table has one entry per definition exactly when names are distinct |
| CheckpointSecrets.SavedIff | agentos/checkpoints.py:47-94 | a checkpoint is saved if and only if it has pending approvals, no response, current or logged, reports usage, and every key and string supplied by a caller, tool or LLM passes the filter, over all nested types |
| CheckpointSecrets.UsageIsRefused | agentos/checkpoints.py:27-27 | any checkpoint whose response, or a logged one, reports usage is refused by save |
| CheckpointResume.PauseIsValid | agentos/checkpoints.py:247-256 | a pause over distinct, well-formed call ids passes the state checks of load |
| CheckpointResume.ResumesAlike | agentos/checkpoints.py:225-243 | resuming the reloaded checkpoint runs the same calls with the same outcomes and counters in the paused round |
| CheckpointResume.ErasedHistorySettled | agentos/checkpoints.py:285-286 | a persisted history obeys the history protocol exactly when it holds no tool message |
| CheckpointResume.HistoryNotSettledAfterReload | agentos/checkpoints.py:285-286 | the first history sent after a resume from disk violates the protocol |
| SortedSets.SortedIs | agentos/checkpoints.py:211-212 | the sorted list of a set holds each element once, in order |
| MemoryStore.EvictionPass | kernel/memory_store.py:284-299 | an eviction pass ends within budget, loses no record, never evicts one ranked above a kept one, and evicts no more than needed |
| MemoryStore.TargetNeverMatters | kernel/memory_store.py:284-299 | any target up to the budget leaves the pass unchanged |
| MemoryTiers.AppendKeeps | kernel/memory_store.py:111-135 | appending adds exactly the new record to the flat store and keeps the tiers in shape, evictions included |
| MemoryTiers.EvictKeeps | kernel/memory_store.py:284-306 | eviction keeps the tiers in shape, the log in step and the flat store unchanged |
| MemoryTiers.ForgetKeeps | kernel/memory_store.py:204-216 | forgetting removes exactly the records with that id from every tier, index and log |
| MemoryTiers.ForgetsIff | kernel/memory_store.py:204-216 | `forget` reports true exactly when the flat store held the id |
| MemoryTiers.LogAppend | kernel/memory_store.py:301-316 | appending a cold record to the log keeps the replayed log equal to the index up to access times |
| MemoryRecall.StoreRefinesFlat | kernel/memory_store.py:111-216 | for every run of register, append, recall and forget, hot and cold ids are disjoint, warm records are copies of cold ones, hot and cold together are exactly what was appended or loaded and not forgotten, hot tokens are within budget, and the log replays to the cold index up to access times |
| MemoryRecall.ReloadedIsTiered | kernel/memory_store.py:308-316 | a manager opened on any log starts in shape and refines the last version of every record in it |
| MemoryRecall.OpenedRefinesFlat | kernel/memory_store.py:85-216 | hence every run of a manager opened on any log refines the flat store |
| MemoryRecall.RecallIsTop | kernel/memory_store.py:170-202 | a recall is a top-`limit` selection of the flat store in nonincreasing (importance, timestamp) order, no id twice, complete below the limit |
| MemoryRecall.CandidatesAreFlat | kernel/memory_store.py:182-189 | the candidates of a recall are exactly the agent's part of the flat store |
| MemoryRecall.TouchKeeps | kernel/memory_store.py:199-201 | a recall changes access times only |
| MemoryRecall.TouchedAreReturnedIff | kernel/memory_store.py:199-202 | for every limit, the records a recall marks as accessed are those it returns if and only if the limit is nonnegative or no more records than its absolute value were found |
| MemoryRecall.RestartKeepsCold | kernel/memory_store.py:308-316 | a manager opened on the log holds exactly the cold records |
| MemoryRecall.SummaryCounts | kernel/memory_store.py:140-162 | `paged_out_frames` counts each cold record of the agent once although warm records are cold too, and `total_frames` each record once |
| MemoryStoreObject.PersistentMemoryManager.constructor | kernel/memory_store.py:85-94 | opening replays the log |
| MemoryStoreObject.PersistentMemoryManager.RegisterAgent | kernel/memory_store.py:96-103 | raises exactly on an empty name or a budget that is not positive; otherwise the agent starts with that budget and no records |
| MemoryStoreObject.PersistentMemoryManager.EvictIfNeeded | kernel/memory_store.py:284-299 | the loop with its early exit has the specified effect and reports whether it evicted |
| MemoryStoreObject.PersistentMemoryManager.EvictLowest | kernel/memory_store.py:287-297 | one turn moves the lowest record to warm and persists a cold copy |
| MemoryStoreObject.PersistentMemoryManager.PersistRecord | kernel/memory_store.py:301-306 | persisting a record the index does not hold keeps the replayed log equal to the index |
| MemoryStoreObject.PersistentMemoryManager.AppendContextFrame | kernel/memory_store.py:111-135 | an unknown agent is registered, the record pushed, the budget restored; the flag says whether the hot records exceeded it |
| MemoryStoreObject.PersistentMemoryManager.CollectCandidates | kernel/memory_store.py:181-188 | the loops keep the first copy of every id, tier by tier |
| MemoryStoreObject.PersistentMemoryManager.GatherInto | kernel/memory_store.py:183-188 | one tier's contribution |
| MemoryStoreObject.PersistentMemoryManager.Filter | kernel/memory_store.py:189-198 | the loop keeps exactly the matching candidates, in order |
| MemoryStoreObject.PersistentMemoryManager.Recall | kernel/memory_store.py:170-202 | touches what it ranks first and returns copies |
| MemoryStoreObject.PersistentMemoryManager.Forget | kernel/memory_store.py:204-216 | every tier loses the id, the log is rewritten when it was cold |
| PageTable.Accounting | src/memory.rs:129-299 | after any sequence of append, page-in and take, the cached count is the token sum of the active pages and within the maximum, and the last content of a paged-out page is its latest evicted copy in pending or taken pages |
| PageTable.PageOutIsShortest | src/memory.rs:271-299 | a page-out ends at the target or below, evicts exactly the shortest oldest-first run of active pages that gets there, and its subtraction never saturates |
| PageTable.SettleKeeps | src/memory.rs:76-78 | settling an overfull table makes it valid again, at most at seven tenths of the maximum |
| PageTable.EvictedCopy | src/memory.rs:280-295 | the copy handed out for a page is the content it had |
| PageTable.AppendValid | src/memory.rs:129-168 | appending keeps the accounting |
| PageTable.PageInValid | src/memory.rs:170-205 | paging in keeps the accounting, also for pages that were not out |
| PageTable.AgentPageTable.ExecutePageOut | src/memory.rs:271-299 | the in-place loop has the specified effect |
| PageTable.AgentPageTable.AppendContextFrame | src/memory.rs:129-168 | the specified append; a frame of no tokens raises and changes nothing, and the flag is true exactly when the maximum was exceeded and copies were handed out |
| PageTable.AgentPageTable.PageInFrame | src/memory.rs:170-205 | the specified page-in, unknown pages refused |
| PageTable.AgentPageTable.TakeEvictedPages | src/memory.rs:261-268 | hands the pending copies out once |
| LlmStreaming.StreamsOneAttempt | kernel/llm/runtime.py:248-482 | across all retries and fallbacks the consumer receives a prefix of the chunk list of the last provider call only, every earlier call yielded nothing, and a normal end means the whole list |
| LlmStreaming.RetriesOnce | kernel/llm/runtime.py:363-482 | retrying happens only while nothing was yielded, at most `max_attempts` times, to one provider |
| LlmStreaming.RoutingOnce | kernel/llm/runtime.py:248-361 | falling back happens only while nothing was yielded |
| LlmStreaming.StreamBounds | kernel/llm/runtime.py:1269-1295 | at most `max_attempts` calls per distinct provider and at most backoff·(2^(max_attempts−1) − 1) of sleep for each |
| LlmStreaming.SleepLeftSum | kernel/llm/runtime.py:1291-1295 | the doubling backoffs from an attempt on sum to backoff·(2^(max−1) − 2^(attempt−1)) |
| LlmBudget.NoCallOnceExceeded | kernel/llm/runtime.py:790-832 | once the ledger exceeds any limit of a strict budget no provider is ever called again and every later chat is refused |
| LlmBudget.CompletionNeverExceeds | kernel/llm/types.py:215-247 | if every request carries `max_tokens` and providers report no more, completion usage never exceeds the limit over any sequence of chats |
| LlmBudget.LedgerGrows | kernel/llm/types.py:215-228 | the ledger never shrinks |
| LlmBudget.ChargesDelivered | kernel/llm/runtime.py:484-496 | a stream read to its end is charged, once, the usage of the chunks its consumer received; a failed one and one left early are charged nothing |
| LlmBudget.LeavingIsPrefix | kernel/llm/runtime.py:219-247 | a consumer that leaves early has received the first chunks of what it would have received |
| LlmBudget.SafeIff | kernel/llm/runtime.py:484-496 | whatever opened streams may report and in whatever order they end, usage stays within the limit if and only if the ledger and their `max_tokens` fit in it and none is unbounded |
| LlmBudget.StreamsWithinIff | kernel/llm/runtime.py:219-247 | over every sequence of openings and ends, completion usage is safe throughout if and only if at every accepted opening the ledger, the streams still open and the new request fit in the limit |
| LlmBudget.CheckMissesIff | kernel/llm/runtime.py:219-247 | an opening is accepted although it does not fit exactly when it would fit on its own and not beside the streams already open; with none open the check is exact |
| LlmBudget.StreamChatOpensAndEnds | kernel/llm/runtime.py:181-247 | a stream and its consumer are one opening, with the same check, and one end, with the same charge |
| LlmRuntimeObject.LLMRuntime.StreamProviderWithRetries | kernel/llm/runtime.py:363-482 | the retry loop makes the specified calls |
| LlmRuntimeObject.LLMRuntime.StreamWithRouting | kernel/llm/runtime.py:248-361 | the fallback loop makes the specified calls |
| LlmRuntimeObject.LLMRuntime.StreamChat | kernel/llm/runtime.py:181-247 | check, stream, charge, check again, for a consumer that reads to the end or leaves after any number of chunks |
| LlmRuntimeObject.LLMRuntime.LastUsage | kernel/llm/runtime.py:412-414 | the usage of the last final chunk that reports one |
| LlmRuntimeObject.LLMRuntime.CompleteWithRetries | kernel/llm/runtime.py:1065-1136 | the retry loop of a completion |
| LlmRuntimeObject.LLMRuntime.RouteCompletion | kernel/llm/runtime.py:632-760 | the fallback loop of a completion, the error raised when no provider is left included |
| LlmRuntimeObject.LLMRuntime.ChatWithRouting | kernel/llm/runtime.py:604-832 | the specified calls, ledger and outcome of one chat |
| ArgumentValidator.ArgumentsExact | kernel/tools/runtime.py:257-294 | no error is returned if and only if the arguments satisfy the declarative predicate, to any nesting depth |
| ArgumentValidator.ValueExact | kernel/tools/runtime.py:297-328 | the same for one value, booleans excluded from numbers |
| ArgumentValidator.ItemsExact | kernel/tools/runtime.py:319-327 | the same for the items of an array |
| ArgumentValidator.PropertiesExact | kernel/tools/runtime.py:284-294 | the same for the declared properties |
| ArgumentValidator.ErrorsInOrder | kernel/tools/runtime.py:270-282 | a missing name is reported exactly when it is the first required one missing, an unknown name exactly when nothing is missing and it is the least undeclared one of a closed schema |

## Left out

- ToolchainCorrect.CompilerCorrect: a local read before its first assignment is 0 on both sides, as in the emitted code; Python would raise.
- Supervision.ReachableForest: in-process children only, without `monitor_child`; a replacement is taken to be still linked when it takes the old slot, which the first-in first-out lock guarantees.
- SupervisionKill.KillIsBulk: a kill run without an interleaved crash or start; it asks for a calm registry, which `RunsStayCalm` gives after any run of operations that do not overlap.
- SupervisionOrder.RecoveryConserves: replacements start and stay up, and no other task interferes during the recovery; a declared `max_restarts` or window of 0 means the default and is the caller's parameter here.
- SupervisionObject.ProcessRegistry.RestartChildNow: the registrations of a replacement succeed; `RunPath` covers those of other processes that do not.
- ToolLoopPausing.PausingIsTransparent: checkpoint ids are taken to be fresh.
- ToolLoopObject.AgentToolLoop.Resume: submissions are maps, so a duplicate decision for one call cannot be written.
- CheckpointCodec.RoundTrip: decoding covers the documents this code writes; the conversions and defaults that only hand-edited documents need are not modelled, and neither is the size limit of 16 MB.
- CheckpointClaim.AtMostOneConsumer: one saved file and no second save while resumers run.
- MemoryStoreObject.PersistentMemoryManager.EvictIfNeeded: the target is computed exactly, not in floating point, which `TargetNeverMatters` shows to be irrelevant.
- PageTable.Accounting: token sums do not overflow the machine word.
- PageTable.AgentPageTable.AppendContextFrame: an empty agent name and content that is not JSON, which raise before a table is reached, are not modelled.
- MemoryStoreObject.PersistentMemoryManager.AppendContextFrame: agent names are taken to be nonempty; the program raises on an empty one.
- Process records, memory records and pages are values stored in maps and lists, so aliasing between tables is not modelled.
- Runtime events, timeline, metrics, replay, dashboard, command line and configuration: observability only.
- Wording of error messages, except those that reach the LLM in a history.
- Parsing of Python, WAT text, float rounding and NaN, SHA-256, JSON bytes and regular expressions: trees, abstract numbers and parameters instead.
- Isolated processes, crashes during a restart's startup, an `on_stop` that raises, and the per-process message statistics.
- MemoryRecall.StoreRefinesFlat: runs register a name once; registering it again, unregistering it and restoring a snapshot replace hot records outright.
- The response cache, the cost ledger and the single-provider path of the LLM runtime.
- Tool timeouts and real threads: a parallel group completes its calls in an arbitrary order instead.
- The approval-related `allow_parallel_tool_calls` check of the loop's constructor and the compatibility check of `resume_checkpoint` against a live loop, which only reject early.
