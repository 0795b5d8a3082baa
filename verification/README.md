# Personal AI secretary: a verified model

A Dafny model of the core of the personal AI secretary service, with proofs of what it
promises. `dafny verify dfyconfig.toml` checks the whole project (Dafny 4.11).

The service lets a language model propose tool calls and keeps control of what happens.
The model follows the source: classes with mutable fields and loops where the source has
them, each method proved against a specification function over values, and the theorems
proved about those functions for every input, every run and every interleaving.

| files | what they model |
|---|---|
| `wrappers.dfy`, `basics.dfy`, `texts.dfy` | options, small functions, text operations |
| `task_control.dfy` | the task state machine and the progress detector |
| `model_manager.dfy` | the model registry, its reliability counters, fallback selection, provider instances |
| `agent_loop.dfy` | the agentic loop: admission, execution, coaching, provider hops, completion; first as functions over a run state, then as the program with its fields, nested loops and early exits |
| `agent_invariants.dfy`, `agent_theorems.dfy`, `agent_runs.dfy` | invariants of a run, that every step keeps them, and the theorems about whole runs with the round cap as a parameter |
| `agent_rounds.dfy`, `hop_rounds.dfy`, `run_meaning.dfy`, `call_rounds.dfy`, `run_endings.dfy` | what happens in the rounds that a run reaches, told by its log, its messages and the replies: coaching, failing providers, calls, and what a run leaves in the registry |
| `completion_exactness.dfy` | when a completed change is a confirmed one |
| `raise_exactness.dfy` | when a run ends by an exception of the loop's own |
| `fallback_exactness.dfy` | when provider hops end by themselves |
| `request_lifecycle.dfy` | create, execute and stale recovery as atomic events of any number of workers over one table |
| `request_theorems.dfy`, `request_creation.dfy`, `request_runs.dfy`, `request_answers.dfy` | invariants of executing and of creating, and the theorems over all interleavings |
| `request_service.dfy` | the same statements as one worker runs them, and their place in the protocol |
| `metric_sink.dfy` | per-worker counters published into one table and aggregated on read |
| `history.dfy`, `summary.dfy`, `assembler.dfy` | the history that fits, the summary of what did not, and the assembled context |
| `attached_files.dfy`, `tool_results.dfy`, `project_tracker.dfy` | file budgeting, tool-result pruning, the working set |
| `json_scanner.dfy` | the balanced-brace scanner against JSON texts |
| `tool_registry.dfy` | normalize, validate, repair, approve, run |

The provider is an oracle that decides round by round, the tools an oracle that decides
call by call; clocks, connectivity and generated identifiers are parameters of the events.

## What the proofs found

Where a promise does not hold of the code in general, the code is modelled as it is and the
exact condition is proved.

- **Provider hops end only if the registry is backed.** A hop charges the failure to the
  provider that really ran. If a registered entry resolves to an instance of another name,
  or to one whose model cannot be set, its own counters never move and it is picked for
  ever (`GhostIsPickedForever`, `HauntedRegistry`). As long as automatic routing finds some
  instance, the hops of runs that stay online are bounded if and only if every entry that may
  be picked resolves to its own switchable instance (`OnlineHopsAreBoundedIff`); where it
  finds none, that condition on the entries that resolve at all is still sufficient
  (`OnlineHopsAreBounded`). `HopsAreBoundedExactlyWhenBacked` covers offline hops as well. The
  program's own registrations never give an unbacked registry: discovery finds self-named,
  switchable providers (`DiscoveryIsBacked`), and an entry added by a verification is
  unavailable unless its provider has an instance.
- **What is reported about a hop** is true of the provider that ran exactly when the last
  target is run by an instance of its own (`ProvenanceReplaysThePath`), and of the abandoned
  one exactly when no empty name of it is filled in from the one that ran
  (`AttemptIsToldTruly`).
- **Completion rests on the tool's own report.** A change counts before its verification.
  Completed runs have a change that passed it if and only if no tool that can be called may
  report a change without an error and then fail its verification
  (`CompletionIsConfirmedIff`); a command that ends with an error code does
  (`FailingCommandCompletes`).
- **Dead code.** The fix-cycle stop can never be taken and two of the progress signals can
  never rise, because other caps fire first (`LaterLimitsAreDead`). The cycle detector sees only
  two alternating tools, three times; its comment promises longer periods
  (`CycleIsThreefoldAlternation`). Filling in a mode when the content is missing never
  leads to an execution (`ContentRepairIsFutile`).
- **The failure history** is cut to its last 50 entries once it is past 30, so its bound is
  50 and the cut first drops something at 51 entries (`HistoryIsBounded`,
  `HistoryIsLastFifty`).
- **Exceptions out of the loop.** No run raises if and only if every call that may be proposed
  has texts as its path and command, a tool name that fits into a turn of 20000 characters and
  files that can be looked at, and no reply that becomes a turn is longer than that
  (`NoRunRaisesIff`). A path that is a number raises even for a tool that is not registered,
  and a modified file whose path is one raises after the task was declared completed
  (`ProvokedRunRaises`).
- **A stale mark can hit a live executor**, and then a second executor can start and
  overwrite a completed status (`AnyHitCanUndoCompletion`). A mark that comes late hits even
  an executor that has just started, because the update asks for the status but not for the
  age (`LateMarkHitsFreshExecutor`), and it hits one below the threshold exactly when that
  one claimed the request after the observation (`HitIsYoungIffReclaimed`). Without a hit
  all the promised exclusivity holds.
- **The session counter** is written as an absolute value: it never runs ahead, and falls
  behind exactly when a commit wrote over a count it had not read (`CounterNeverRunsAhead`),
  as two creates can (`LostUpdateIsReachable`).
- **An empty idempotency key** is not looked up but is subject to the unique constraint, so
  no user has a second create accepted with it (`EmptyKeyIsAcceptedOnce`).
- **Overlapping flushes** of one worker can roll a published counter back
  (`OverlappingFlushesRollBack`). From a state on it cannot fall, as long as no further reads
  overlap, exactly when no read in flight is behind it or behind another
  (`NeverFallsIffReadsAgree`). Once nothing is counted any more, a snapshot
  is exact exactly when every row was or has been written since (`FlushedSnapshotIsExact`).
  A name that is both counted and timed is published only as a duration (`FlushIsExactUnlessTimed`).
- **The default clock of the sink** is read once, at construction: retention compares times
  of construction and not ages, however much time passes (`FrozenRetention`).
- **Attached files** may exceed their budget by one character, exactly when a file is cut
  behind a character that is no white space (`OverrunIffSolidCut`, `SolidFileOverruns`). A cut file is the last one
  in the text exactly when no later one fits what was stripped, less three
  (`CutEndsTextIff`, with `CutNeedNotBeLast`).
- **The history** may exceed its budget by up to 36 characters (`OverflowIsBounded`), and
  cannot be built at all in the cases that `UnsendableIsRefused` gives by lengths and roles;
  with ordinary roles and budgets there are none (`OrdinaryHistoryIsBuilt`).

## Model

| member | source | states |
|---|---|---|
| `AgentLoop.ExecutionAgent.RunWithProvider` | src/personal_ai_secretary/agents/builtin.py:502-1343 | the whole loop, as an object with fields, nested loops, early exits and exits by exceptions, ends in exactly the outcome of the run function, for every reply, every tool result and every round cap |
| `AgentLoop.ExecutionAgent.OneRound` | src/personal_ai_secretary/agents/builtin.py:502-839 | one round: time budget, provider reply or failure, empty reply, text |
| `AgentLoop.CallDesk.OnCalls` | src/personal_ai_secretary/agents/builtin.py:841-1240 | admission of a batch: count the proposals, set aside what was executed, stall, limits, execution, with the whole new state |
| `AgentLoop.CallDesk.OnText` | src/personal_ai_secretary/agents/builtin.py:795-839 | a reply without usable calls: up to three nudges while a mutation is owed, otherwise the loop is left |
| `AgentLoop.CallDesk.OnStall` | src/personal_ai_secretary/agents/builtin.py:863-920 | a round in which everything proposed had been executed: coach once, then stop or show the last result |
| `AgentLoop.CallDesk.ProposeAll` | src/personal_ai_secretary/agents/builtin.py:843-854 | every proposal is counted by call and by name, and deduplicated if executed before |
| `AgentLoop.CallDesk.SelectFresh` | src/personal_ai_secretary/agents/builtin.py:856-856 | the proposals that were not executed before, in order |
| `AgentLoop.CallDesk.CheckLimits` | src/personal_ai_secretary/agents/builtin.py:925-967 | the first proposal that breaks a limit decides, identical calls before names |
| `AgentLoop.CallDesk.ExecuteAll` | src/personal_ai_secretary/agents/builtin.py:973-1240 | the batch in order, with calls repeated inside it skipped, until one stops the loop or raises; then the reply becomes a turn, which raises if it is longer than 20000 characters |
| `AgentLoop.CallDesk.PerformCall` | src/personal_ai_secretary/agents/builtin.py:983-1198 | one admitted call: log, progress, state machine, verification, preflight, approval, failure budget, fix cycles, and the exception that its arguments or its report cause |
| `AgentLoop.CallDesk.DecideCompletion` | src/personal_ai_secretary/agents/builtin.py:1245-1261 | blocked for a pending approval, failed if a mutation is owed, completed otherwise, and nothing if already terminal |
| `AgentLoop.CallDesk.FinishWork` | src/personal_ai_secretary/agents/builtin.py:1245-1310 | the completion decision, and after it the claimed files: an exception if one cannot be looked at, and otherwise a failed verification if one is missing |
| `AgentLoop.CallDesk.LookAt` | src/personal_ai_secretary/agents/verifier.py:403-435 | looking at the claimed files one by one raises if and only if one is no text or is refused, and otherwise tells whether one is missing |
| `AgentLoop.CallDesk.NoteFile` | src/personal_ai_secretary/agents/builtin.py:1200-1208 | the file a call claims: its file_path if that is truthy, otherwise its path, to create or to modify by the tool |
| `AgentLoop.ProviderRoute.Rerouting` | src/personal_ai_secretary/agents/builtin.py:659-707 | a provider failure under automatic routing: block on connectivity, ask for a fallback, switch to its instance |
| `AgentLoop.ExecutionAgent.OnFailure` | src/personal_ai_secretary/agents/builtin.py:600-745 | manual mode refuses, an initialized manager may hop, otherwise the run gives up |
| `AgentLoop.ExecutionAgent.Complete` | src/personal_ai_secretary/agents/builtin.py:1245-1341 | completion decision, look at the session's files, which may raise, and feedback to the model manager |
| `AgentLoop.ProviderRoute.GiveFeedback` | src/personal_ai_secretary/agents/builtin.py:1329-1341 | one success or failure for the provider that runs, if it is named and managed |
| `AgentRuns.WorkIsBounded` | src/personal_ai_secretary/agents/builtin.py:502-1240 | for every cap and every behaviour of model and tools, K registered tools allow at most 9K+3 executions |
| `AgentRuns.TalkIsBounded` | src/personal_ai_secretary/agents/builtin.py:502-1240 | and at most 9K+7 answered rounds and 4 directives |
| `AgentRuns.NothingRepeats` | src/personal_ai_secretary/agents/builtin.py:856-980 | no call is executed twice in a run |
| `AgentRuns.ToolsAreRationed` | src/personal_ai_secretary/agents/builtin.py:466-467 | no tool is executed more than three times in a run, although the loop only limits proposals |
| `AgentRuns.LaterLimitsAreDead` | src/personal_ai_secretary/agents/builtin.py:1179-1198 | fix cycles stay at most 3, so the fix-cycle stop is dead, and two progress signals can never rise |
| `AgentRuns.CompletionNeedsEvidence` | src/personal_ai_secretary/agents/builtin.py:1247-1261 | a run that is not cut short ends in a terminal state that agrees with what the user is told; completed where a modification is required needs a logged error-free call of a registered modifying or executing tool |
| `CompletionExactness.CompletionIsConfirmedIff` | src/personal_ai_secretary/agents/builtin.py:1008-1261 | for every configuration and every set of results that handlers may give: all completed runs that needed a change have one whose verification passed, if and only if no tool that can be called may report a change without an error that fails its verification |
| `CompletionExactness.CompletionIsConfirmed` | src/personal_ai_secretary/agents/builtin.py:1008-1261 | under that condition every completed run that needed a change logged one that is free of errors after its verification |
| `CompletionExactness.CompletedUnconfirmed` | src/personal_ai_secretary/agents/builtin.py:1008-1261 | otherwise any such call, wherever a change is required, gives a completed run whose only change failed its verification, whatever else is configured and for every positive round cap |
| `CompletionExactness.FailingCommandCompletes` | src/personal_ai_secretary/agents/verifier.py:192-222 | for instance a command that ends with an error code: no error is reported, the verification fails, the run is completed |
| `RaiseExactness.NoRunRaisesIff` | src/personal_ai_secretary/agents/builtin.py:1045-1310 | for every configuration, reading of arguments, disk, set of calls that may be proposed and length of replies: no run ends by an exception of the loop if and only if every such call has texts where the loop looks for them, a name that fits into a turn and files that can be looked at, and needs an approval it lacks where replies may be too long for a turn |
| `RaiseExactness.ProvokedRunRaises` | src/personal_ai_secretary/agents/builtin.py:1045-1310 | any other call makes a run of every positive cap raise, whatever else is configured: for instance a file to create whose path is a number, registered or not, or a reply of more than 20000 characters with a call that is executed |
| `RaiseExactness.SmoothRunsRaiseIff` | src/personal_ai_secretary/agents/builtin.py:1235-1238 | over calls that cannot raise themselves, no run raises if and only if replies have at most 20000 characters, or there is no registry or no round |
| `AgentRuns.TransitionsAreSound` | src/personal_ai_secretary/agents/task_state.py:62-190 | in every run the recorded transitions are one path out of idle, without self-loops, terminal only at the end, and the only edges outside the table are reading to correcting and verifying to executing |
| `AgentRuns.ProvenanceReplaysThePath` | src/personal_ai_secretary/agents/builtin.py:304-330 | the exposed chain replays the real path of providers; the executed provider is told truly exactly when no hop was taken or the last target is run by an instance of its own; manual mode never hops |
| `AgentRuns.AttemptIsToldTruly` | src/personal_ai_secretary/agents/builtin.py:304-330 | after a hop the exposed attempted provider and model are the last abandoned ones if and only if neither of those two names is empty while the executed one is not; without a hop they are the starting ones |
| `AgentRuns.LoopEndsByItself` | src/personal_ai_secretary/agents/builtin.py:502-745 | with a backed registry a cap above a bound computed from tools and registry is never exhausted, and every larger cap gives the same run |
| `AgentRuns.LargerCapSameRun` | src/personal_ai_secretary/agents/builtin.py:502-502 | a run that did not exhaust its cap is the same under any larger cap |
| `AgentRounds.PlainReply` | src/personal_ai_secretary/agents/builtin.py:795-839 | in every round that any run reaches, a reply without usable calls brings exactly one directive and another round as long as a change is required, none was made and fewer than three directives went out; otherwise it ends the loop, nothing is executed, no directive goes out, and it is the text the decision starts from |
| `AgentRounds.NotCompletedOnlyAfterCoaching` | src/personal_ai_secretary/agents/builtin.py:795-1261 | no run that leaves the loop by itself tells the user about a reply that the task was not completed before three directives went out |
| `CallRounds.StateIsTold` | src/personal_ai_secretary/agents/builtin.py:841-1240 | whenever a run reaches a round, the log of executions, the messages and all proposals so far determine everything it counts and remembers: task state, mutation, failed verification, last tool, failures in a row, fix cycles, progress counters, claimed files, directives, rounds, seen calls and names, and what was deduplicated |
| `CallRounds.CallsAreTaken` | src/personal_ai_secretary/agents/builtin.py:841-1240 | what any reply with calls does in any reached round: one directive or a named end if all were executed before or the first one proposed too often says so, and otherwise the execution of each call at its first occurrence, in order, until one waits for approval, is the third failure in a row, or makes the loop raise |
| `CallRounds.BatchTells` | src/personal_ai_secretary/agents/builtin.py:973-1240 | a batch grows the log by its first occurrences, each with the result it is given; only its last call may stop the loop or raise, and a reply of more than 20000 characters raises after all of them |
| `CallRounds.LimitMeaning` | src/personal_ai_secretary/agents/builtin.py:925-967 | the limit that stops a batch is that of the first proposal that was made more than twice, or whose tool was proposed four times, over all replies so far |
| `CallRounds.DispatchGives` | src/personal_ai_secretary/agents/builtin.py:1876-1903 | a tool that is not registered or waits for an approval not given yields an error without a result, any other the handler's result |
| `RunMeaning.PerformTells` | src/personal_ai_secretary/agents/builtin.py:1008-1198 | one call updates all memories as its longer log tells, and stops the loop exactly for an approval, the third failure in a row or an exception |
| `RunMeaning.TripsMeaning` | src/personal_ai_secretary/agents/builtin.py:1045-1240 | by tool and arguments, over which executions the loop itself raises: at once, or when it would go on |
| `RunMeaning.VerificationByTool` | src/personal_ai_secretary/agents/verifier.py:327-400 | tool by tool, which results pass verification |
| `RunEndings.RegistryIsTold` | src/personal_ai_secretary/agents/builtin.py:659-1341 | after any run every entry of the registry has the failures it had, one for each hop away from it, and at the end one failure or one success for the entry that ran: a failure if and only if the last result failed verification or a claimed file is missing |
| `HopRounds.BlockedAreUnreachable` | src/personal_ai_secretary/agents/builtin.py:659-667 | in every round that any run reaches, the blocked providers are exactly those that ran in an earlier round and could not be connected to, and the provider last picked is none of them |
| `HopRounds.NoReturnToUnreachable` | src/personal_ai_secretary/agents/builtin.py:659-707 | with a backed registry no later element of the path belongs to a provider the run could not connect to |
| `HopRounds.FailureGoesOn` | src/personal_ai_secretary/agents/builtin.py:600-707 | a run goes on after a failure only under automatic routing, with the first registered entry that qualifies, and if some instance can be found whenever one qualifies |
| `HopRounds.WhyInterrupted` | src/personal_ai_secretary/agents/builtin.py:600-793 | how the rounds of an interrupted run end: exactly an exception, an empty reply, a failure under manual choice or a failure without a way on, and what each leaves of the state |
| `AgentTheorems.HandleTextIsSound` | src/personal_ai_secretary/agents/builtin.py:795-1240 | one reply, whatever it proposes, keeps all invariants of the run, or leaves the loop with the right kind of text |
| `AgentTheorems.BatchIsSound` | src/personal_ai_secretary/agents/builtin.py:973-1240 | executing any admitted batch keeps the invariants and pays for the round it was opened in |
| `AgentTheorems.PerformIsSound` | src/personal_ai_secretary/agents/builtin.py:983-1198 | one admitted call keeps the work sound, and stops only as failed or waiting for approval |
| `AgentTheorems.StalledIsSound` | src/personal_ai_secretary/agents/builtin.py:863-920 | a stalled round keeps the invariants or ends the run with a consistent verdict |
| `AgentRuns.DecideIsSound` | src/personal_ai_secretary/agents/builtin.py:1247-1261 | the completion decision turns every sound undecided state into a decided one |
| `AgentRuns.RoundIsSound` | src/personal_ai_secretary/agents/builtin.py:502-1240 | every round keeps the invariants of desk and route together and costs one text or one hop |
| `AgentRuns.RerouteIsSound` | src/personal_ai_secretary/agents/builtin.py:659-707 | a hop keeps the provenance faithful and is paid for by the room of the registry |
| `AgentRuns.FaithfulHop` | src/personal_ai_secretary/agents/builtin.py:682-705 | metrics updated for a hop still tell the path that was really taken |
| `AgentInvariants.SuccessesInBound` | src/personal_ai_secretary/agents/builtin.py:466-467 | three executions per tool bound the successes by three times the registry |
| `FallbackExactness.HopsAreBounded` | src/personal_ai_secretary/agents/builtin.py:659-707 | with a backed registry no run takes more hops than the registry has room, and one |
| `FallbackExactness.PhantomHopsForever` | src/personal_ai_secretary/providers/model_manager.py:406-452 | with an entry that resolves to another instance, a failing provider makes the loop hop in every round of any cap |
| `FallbackExactness.HopsAreBoundedExactlyWhenBacked` | src/personal_ai_secretary/providers/model_manager.py:362-452 | for registries with only verified or only unverified entries: hops are bounded over all runs, starting points and histories if and only if the registry is backed |
| `FallbackExactness.OnlineHopsAreBoundedIff` | src/personal_ai_secretary/providers/model_manager.py:248-452 | for every registry of named providers, mixed ones included, for which automatic routing always finds some instance: over all runs that stay online hops are bounded if and only if every entry that may be picked is run by an instance of its own |
| `FallbackExactness.OnlineHopsAreBounded` | src/personal_ai_secretary/providers/model_manager.py:248-452 | whatever automatic routing finds, runs that stay online have bounded hops if every entry that may be picked is run by an instance of its own or by none |
| `FallbackExactness.GhostIsPickedForever` | src/personal_ai_secretary/providers/model_manager.py:362-452 | an entry that may be picked and whose provider has no instance is run by the last resort, and then a run of any cap can hop in every round |
| `FallbackExactness.HauntedRegistry` | src/personal_ai_secretary/providers/model_manager.py:362-404 | one such entry beside one ollama instance is such a registry |
| `TaskControl.TaskStateMachine.Transition` | src/personal_ai_secretary/agents/task_state.py:165-182 | terminal states are sticky, a self-transition leaves no record, anything else is recorded |
| `TaskControl.MoveKeepsChain` | src/personal_ai_secretary/agents/task_state.py:165-182 | a transition keeps the record one connected path and never leaves a terminal state |
| `TaskControl.MoveKeepsFlags` | src/personal_ai_secretary/agents/task_state.py:62-107 | an allowed or tolerated transition keeps the record free of other flagged edges |
| `TaskControl.AllowedByTarget` | src/personal_ai_secretary/agents/task_state.py:62-107 | the table by the state entered: the start is never come back to, the end, reading and modifying are open from everywhere, corrections follow a change, a command or a verification |
| `TaskControl.ProgressDetector.Record` | src/personal_ai_secretary/agents/task_state.py:254-285 | counters of calls, names, reads, mutations and successes after one executed call |
| `TaskControl.ProgressDetector.DirectiveFor` | src/personal_ai_secretary/agents/task_state.py:364-372 | issuing a directive counts it and changes nothing else |
| `TaskControl.CycleIsThreefoldAlternation` | src/personal_ai_secretary/agents/task_state.py:346-362 | the cycle detector fires exactly on three rounds of an alternation of two tools; periods 1 and 3 are never detected |
| `ModelManagement.ModelManager.GetFallbackProvider` | src/personal_ai_secretary/providers/model_manager.py:406-440 | the pick and the updated history, over the entries as they are |
| `ModelManagement.ModelManager.GetCandidates` | src/personal_ai_secretary/providers/model_manager.py:248-267 | local entries offline, verified ones if there are any, otherwise all available ones |
| `ModelManagement.ModelManager.GetProviderInstance` | src/personal_ai_secretary/providers/model_manager.py:362-404 | the instance a name resolves to, with manual mode and automatic selection |
| `ModelManagement.ModelManager.RecordFailure` | src/personal_ai_secretary/providers/model_manager.py:447-452 | a failure is counted, and retires the entry at five failures below reliability 0.3 |
| `ModelManagement.ModelManager.RecordSuccess` | src/personal_ai_secretary/providers/model_manager.py:442-445 | a success is counted for exactly the named entry |
| `ModelManagement.ModelManager.Register` | src/personal_ai_secretary/providers/model_registry.py:125-152 | a known key is left alone, a new one appended |
| `ModelManagement.ModelManager.Initialize` | src/personal_ai_secretary/providers/model_manager.py:97-112 | instances and entries after discovery |
| `ModelManagement.ModelEntry.RecordSuccess` | src/personal_ai_secretary/providers/model_registry.py:88-90 | counters of one entry after a success |
| `ModelManagement.ModelEntry.RecordFailure` | src/personal_ai_secretary/providers/model_registry.py:92-94 | counters of one entry after a failure |
| `ModelManagement.PickIsTrustworthy` | src/personal_ai_secretary/providers/model_manager.py:420-440 | a pick is a live registered entry, none of the last three failures, of no blocked provider; there is none exactly when no candidate qualifies |
| `ModelManagement.HistoryIsBounded` | src/personal_ai_secretary/providers/model_manager.py:420-424 | one more failure makes the history one longer up to exactly 50, and trimming hides none of the last three |
| `ModelManagement.HistoryIsLastFifty` | src/personal_ai_secretary/providers/model_manager.py:420-424 | after any failures the history is exactly the last 50 of them |
| `ModelManagement.PickIsFirst` | src/personal_ai_secretary/providers/model_manager.py:248-440 | the pick is the first entry in order of registration that is live, verified online if any entry is, local offline, of no blocked provider and none of the last three failures; there is none exactly if no entry is |
| `ModelManagement.ResolveMeaning` | src/personal_ai_secretary/providers/model_manager.py:362-377 | a name finds its own instance, no other in manual mode, and otherwise what the setting prefers |
| `ModelManagement.PreferredInstance` | src/personal_ai_secretary/providers/model_manager.py:379-404 | the order in which each setting prefers the instances there are |
| `ModelManagement.RetiredAtThreshold` | src/personal_ai_secretary/providers/model_manager.py:447-452 | a failure retires a live entry exactly when max(5, floor(7s/3)+1) failures are reached, and costs one unit of room |
| `ModelManagement.FailureCostsRoom` | src/personal_ai_secretary/providers/model_manager.py:447-452 | one failure costs the registry one unit of room if it hits a live entry, and never adds any |
| `ModelManagement.SuccessCostsNothing` | src/personal_ai_secretary/providers/model_manager.py:442-445 | a success is counted for the entry it names, changes no other and no status, and never costs room |
| `ModelManagement.DiscoveryRegistersFound` | src/personal_ai_secretary/providers/model_manager.py:97-112 | discovery registers exactly the models found, all of them unknown and without a record |
| `ModelManagement.DiscoveryFindsInstances` | src/personal_ai_secretary/providers/model_manager.py:97-112 | a name finds the instance discovered last under it |
| `ModelManagement.DiscoveryIsBacked` | src/personal_ai_secretary/providers/model_manager.py:97-112 | after discovery of self-named providers every live entry is run by an instance of its own |
| `RequestRuns.ExecutorsAreBounded` | src/personal_ai_secretary/application/service.py:172-401 | over every interleaving, live and crashed executors of a request are at most its stale marks, plus one while it is running |
| `RequestRuns.RunningMeansOneExecutor` | src/personal_ai_secretary/application/service.py:172-401 | if no stale mark hit a live executor, a row is running exactly while it has one executor, alive or crashed, and never two |
| `RequestRuns.CompletedIsAbsorbing` | src/personal_ai_secretary/application/service.py:179-194 | without a hit, a completed row never changes again in any continuation |
| `RequestRuns.CompletedIsFinalIffUnheld` | src/personal_ai_secretary/application/service.py:179-331 | a completed request stays completed in every continuation if and only if no executor holds it any more |
| `RequestRuns.AnyHitCanUndoCompletion` | src/personal_ai_secretary/application/service.py:179-401 | after any stale mark of a live executor, whatever that executor has done so far, there is a continuation in which completed is overwritten |
| `RequestRuns.AHitIsReachable` | src/personal_ai_secretary/application/service.py:172-401 | a concrete run from the empty table that reaches such a state |
| `RequestRuns.ObservedExecutorIsOld` | src/personal_ai_secretary/application/service.py:348-385 | without a hit, what an observation finds stale was claimed longer ago than the threshold |
| `RequestRuns.LateMarkHitsFreshExecutor` | src/personal_ai_secretary/application/service.py:387-401 | a mark that comes late hits an executor of age zero, because the update asks for the status only |
| `RequestRuns.HitIsYoungIffReclaimed` | src/personal_ai_secretary/application/service.py:348-401 | whatever happens between observation and mark, an executor the mark would hit is younger than the threshold if and only if it claimed the request after the observation |
| `RequestRuns.MarkSparesFinished` | src/personal_ai_secretary/application/service.py:387-401 | a stale mark changes no row but its own, and that one only while it is running |
| `RequestRuns.ClaimStarts` | src/personal_ai_secretary/application/service.py:179-194 | in every state an unused worker's claim makes the row running with that worker as its holder if and only if the row is neither running nor completed and the caller is absent or its user; otherwise it changes nothing |
| `RequestRuns.RestartEnds` | src/personal_ai_secretary/application/service.py:179-331 | so a blocked, rejected or failed request can be executed again by its user, and any outcome becomes its status with nothing else changed |
| `RequestRuns.OutcomeIsWrittenUnlessRead` | src/personal_ai_secretary/application/service.py:196-331 | in every run, whatever happens between an executor's reading of its row and its end: the outcome is written over any other status, unless it is the status that was read; then the row keeps the one it has by now |
| `RequestAnswers.AnswersAreTrue` | src/personal_ai_secretary/application/service.py:70-143 | over every interleaving each answer of a create is true from then on: an accepted request is the user's, with the key and in the wanted session; a mismatch is told for a key whose request is in another session; another user's session is refused; an error is only told for the empty key, and it is taken |
| `RequestRuns.OneRowPerKey` | src/personal_ai_secretary/application/service.py:70-143 | however creates interleave, one user and one key leave at most one row |
| `RequestRuns.SameKeySameAnswer` | src/personal_ai_secretary/application/service.py:70-156 | all accepted creates of one user and non-empty key return the same request, which exists and is theirs |
| `RequestRuns.EmptyKeyIsAcceptedOnce` | src/personal_ai_secretary/application/service.py:77-143 | in no run are two creates of one user accepted with the empty key, which is not looked up but is unique |
| `RequestRuns.CounterNeverRunsAhead` | src/personal_ai_secretary/application/service.py:90-127 | the session counter never exceeds its requests, equals them unless a commit wrote over a count it had not read, and all of them are of the session's user |
| `RequestRuns.LostUpdateIsReachable` | src/personal_ai_secretary/application/service.py:90-127 | a run of two creates that both read the counter before either commits, after which it is 2 for three requests |
| `RequestRuns.SerialCountIsExact` | src/personal_ai_secretary/application/service.py:90-127 | with one create at a time the counter equals the number of requests |
| `RequestRuns.RunKeepsInvariants` | src/personal_ai_secretary/application/service.py:70-401 | every run keeps both protocol invariants |
| `RequestTheorems.StepKeepsExecution` | src/personal_ai_secretary/application/service.py:172-401 | every event keeps the accounting of executors |
| `RequestTheorems.MarkKeepsExecution` | src/personal_ai_secretary/application/service.py:387-401 | a stale mark keeps the accounting: it pays for the executor it may admit |
| `RequestCreation.StepKeepsCreation` | src/personal_ai_secretary/application/service.py:70-143 | every event keeps unique keys, sound answers and sound counters |
| `RequestCreation.InsertKeepsCreation` | src/personal_ai_secretary/application/service.py:110-127 | the commit of a new request keeps them, counter races included |
| `RequestServing.RequestService.Create` | src/personal_ai_secretary/application/service.py:70-143 | a create on its own: the answer and the whole new table, on every error path |
| `RequestServing.RequestService.FindByIdempotencyKey` | src/personal_ai_secretary/application/service.py:145-156 | finds a row exactly if the user has one with that key |
| `RequestServing.RequestService.ClaimForExecution` | src/personal_ai_secretary/application/service.py:179-194 | one row is affected if and only if the request has a row that is neither running nor completed and the caller is absent or its user; then exactly that row becomes running |
| `RequestServing.RequestService.CommitOutcome` | src/personal_ai_secretary/application/service.py:286-331 | the final commit: the status column is written only if it differs from the loaded one |
| `RequestServing.RequestService.MarkStaleFailed` | src/personal_ai_secretary/application/service.py:387-401 | the conditional update of a stale row, and its row count |
| `RequestServing.RequestService.RecoverStaleRunning` | src/personal_ai_secretary/application/service.py:348-366 | one recovery pass fails exactly the stale running rows and returns their number |
| `RequestServing.CreateAloneIsARun` | src/personal_ai_secretary/application/service.py:70-143 | the create of the service is the protocol's create with nothing interleaved |
| `RequestServing.RetryIsIdempotent` | src/personal_ai_secretary/application/service.py:77-88 | retrying an accepted create with its key answers the same and changes nothing |
| `RequestServing.RecoveryIsExact` | src/personal_ai_secretary/application/service.py:348-385 | recovery fails exactly the rows that have been running for longer than the threshold, and a second pass finds none |
| `MetricSinking.PostgresMetricSink.Flush` | src/personal_ai_secretary/infrastructure/stores.py:382-386 | the rows after a flush: counters, then durations over them, and nobody else's rows changed |
| `MetricSinking.PostgresMetricSink.Snapshot` | src/personal_ai_secretary/infrastructure/stores.py:388-425 | per name the sum of the counters and the maximum of the durations that are not too old, by the time of construction or a live clock |
| `MetricSinking.PostgresMetricSink.RecordMetric` | src/personal_ai_secretary/infrastructure/stores.py:355-380 | an upsert of one row with the time of construction or of a live clock |
| `MetricSinking.Metrics.Inc` | src/personal_ai_secretary/observability/metrics.py:19-21 | one counter is increased |
| `MetricSinking.Metrics.RecordDuration` | src/personal_ai_secretary/observability/metrics.py:23-29 | one duration is replaced |
| `MetricSinking.SnapshotNeverOvercounts` | src/personal_ai_secretary/infrastructure/stores.py:355-425 | over every interleaving a snapshot reports at most what was counted, and without retention exactly that if and only if every worker's row is up to date |
| `MetricSinking.SnapshotSumsLastWrites` | src/personal_ai_secretary/infrastructure/stores.py:372-425 | a snapshot is the sum of each worker's last write, and writing a value once more changes nothing |
| `MetricSinking.FlushIsExactUnlessTimed` | src/personal_ai_secretary/infrastructure/stores.py:382-386 | a full flush that nothing interleaves with is a run of the protocol with the rows of the sink's own flush, and makes a counter exact if and only if that worker does not also time its name |
| `MetricSinking.OverlappingFlushesRollBack` | src/personal_ai_secretary/infrastructure/stores.py:372-380 | a concrete run in which two flushes of one worker let the reported count go down |
| `MetricSinking.NeverFallsIffReadsAgree` | src/personal_ai_secretary/infrastructure/stores.py:372-386 | in any reachable state a published count never falls in any continuation that starts no second read of it while one is in flight and does not publish its name as a duration, if and only if no read in flight is behind it or behind another read |
| `MetricSinking.OneFlushAtATimeNeverFalls` | src/personal_ai_secretary/infrastructure/stores.py:372-386 | so in every run with at most one read of a counter in flight, and its name not timed, its published count never falls |
| `MetricSinking.QuietRunIsExact` | src/personal_ai_secretary/infrastructure/stores.py:355-386 | from reads in flight that are up to date, however flushes interleave while nothing is counted, a row ends exact if and only if it was or some flush wrote it |
| `MetricSinking.FlushedSnapshotIsExact` | src/personal_ai_secretary/infrastructure/stores.py:355-425 | after any run, and then any interleaving of flushes of a name that is not counted or timed meanwhile and has no outdated read in flight, the snapshot is the true total if and only if every worker's row was exact or was written |
| `MetricSinking.FrozenRetention` | src/personal_ai_secretary/infrastructure/stores.py:337-351 | after any run without live clocks, and whenever it is taken, a snapshot hides exactly the workers constructed longer before the reader than the retention, and is exact if and only if every worker that counted something is not hidden and has an up-to-date row |
| `MetricSinking.WorkersRemember` | src/personal_ai_secretary/observability/metrics.py:19-29 | after any run every worker holds the sum of what it counted and the last of what it timed, name by name |
| `MetricSinking.LongestIsReported` | src/personal_ai_secretary/infrastructure/stores.py:388-425 | if all timings of a name are published, a snapshot without retention reports the longest of them |
| `MetricSinking.SumBelow` | src/personal_ai_secretary/infrastructure/stores.py:400-416 | the sum is monotone in the rows, with equality exactly when nothing is missing |
| `History.GroupPairs` | src/personal_ai_secretary/context/history.py:44-64 | the index-decrementing loop computes the groups |
| `History.GroupsFlattenBack` | src/personal_ai_secretary/context/history.py:44-64 | grouping loses and reorders nothing, and makes only pairs and single turns |
| `History.PairsStayTogether` | src/personal_ai_secretary/context/history.py:44-64 | a question and its direct answer are never in different groups |
| `History.BuildHistory` | src/personal_ai_secretary/context/history.py:73-140 | the loops over groups and turns, with selection by identity, compute the built history, or fail when a kept turn cannot be sent |
| `History.CutIsLongest` | src/personal_ai_secretary/context/history.py:96-103 | the cut keeps the longest run of newest groups that fits |
| `History.KeepsTheLongestTail` | src/personal_ai_secretary/context/history.py:96-140 | unless the newest group overflows, dropped and kept turns together are the valid history, cut between groups, and the kept part is the longest within the budget |
| `History.OverflowIsBounded` | src/personal_ai_secretary/context/history.py:104-123 | in the overflow case the total is max(budget, whole+36), at most the budget and 36, and within the budget exactly when 36 characters remained |
| `History.OverflowKeepsNewestText` | src/personal_ai_secretary/context/history.py:67-123 | in the overflow case the messages are the newest turns of the newest group, all word for word but the oldest, whose text is its own last max(room left - 35, 1) characters and the marker, with its role |
| `History.OtherwiseVerbatim` | src/personal_ai_secretary/context/history.py:96-140 | unless the newest group overflows, every message says a turn word for word, in order and up to the newest |
| `History.NormalizedIsTheValid` | src/personal_ai_secretary/context/history.py:34-41 | the turns considered are exactly the stored ones with a role and a content that is not empty, in order |
| `History.NoRoomNothingSent` | src/personal_ai_secretary/context/history.py:73-95 | without room nothing is sent and everything valid counts as dropped |
| `History.BuiltIsBounded` | src/personal_ai_secretary/context/history.py:73-140 | for every history and budget what is sent is bounded, and empty only without room or valid turns |
| `History.KeptIffTailFits` | src/personal_ai_secretary/context/history.py:96-103 | unless the newest group overflows, a turn is kept if and only if its group and everything newer fit the budget |
| `History.UnsendableIsRefused` | src/personal_ai_secretary/context/history.py:96-129 | by the lengths and roles of the turns: the history cannot be built if and only if the newest group overflows and its answer or its cut turn cannot be sent, or it does not and a turn that cannot be sent is in a group that fits with everything newer |
| `History.OrdinaryHistoryIsBuilt` | src/personal_ai_secretary/context/history.py:73-140 | with roles of 1 to 16 characters and a budget up to 20000 every history is built |
| `History.DroppedIsTheRest` | src/personal_ai_secretary/context/history.py:132-136 | dropping by identity drops exactly what the selection did not keep, with the original of a cut turn counted as dropped |
| `Summary.BuildSummaryFromTurns` | src/personal_ai_secretary/context/summary.py:86-121 | the nested loops over turns, sentences and files compute the summary |
| `Summary.SummaryIsCompact` | src/personal_ai_secretary/context/summary.py:24-25 | at most four distinct non-empty items of at most 160 characters in each section, whatever the patterns match |
| `Summary.SectionIsFirstItems` | src/personal_ai_secretary/context/summary.py:80-83 | a section is the first four distinct items offered: nothing is invented, and an item is missing only if the section is full |
| `Summary.SectionsAreIndependent` | src/personal_ai_secretary/context/summary.py:98-115 | every section holds the first four distinct items that the dropped turns offer it, whatever the others hold; of facts that begin alike only the first is an offer |
| `Summary.HeadsTellStarts` | src/personal_ai_secretary/context/summary.py:116-119 | two facts are taken for the same exactly if their first 60 characters agree |
| `Summary.CollapsedIsJoined` | src/personal_ai_secretary/context/summary.py:73-74 | an item is its words with one space between them |
| `Summary.ClipIsStart` | src/personal_ai_secretary/context/summary.py:73-77 | a longer item is the start of that, stripped, and three dots |
| `Summary.RenderedByTitle` | src/personal_ai_secretary/context/summary.py:124-140 | the block has a line for each section that is not empty, its items under the title of what they are, in a fixed order |
| `Summary.RenderSummary` | src/personal_ai_secretary/context/summary.py:124-140 | the loop over the sections renders the block, and nothing for an empty summary |
| `Summary.RenderedIsShort` | src/personal_ai_secretary/context/summary.py:124-140 | the rendered block has at most 3972 characters |
| `Assembler.ContextAssembler.Assemble` | src/personal_ai_secretary/context/assembler.py:66-129 | prompt, messages and all statistics of the assembled context |
| `Assembler.ContextIsBounded` | src/personal_ai_secretary/context/assembler.py:83-120 | the total is at most max(budget, reserved + 512) + 36 + 3973, and the system prompt stays an intact prefix |
| `Assembler.UntruncatedFitsExactly` | src/personal_ai_secretary/context/assembler.py:83-120 | if all valid turns fit, all are sent, no summary is added, and the bound is the budget itself |
| `Assembler.NothingDroppedIff` | src/personal_ai_secretary/context/assembler.py:83-95 | nothing is dropped if and only if there are no valid turns, or they fit the share of the history and, unless they are at most 512 characters, what the other pieces leave |
| `Assembler.SummaryStandsForDropped` | src/personal_ai_secretary/context/assembler.py:92-99 | the prompt gets a block exactly for dropped turns with something to summarize, rendered from those turns |
| `Assembler.StatisticsAddUp` | src/personal_ai_secretary/context/assembler.py:103-120 | the statistics add up: total, dropped turns and their characters |
| `AttachedFiles.FormatAttachedFiles` | src/personal_ai_secretary/context/files.py:49-115 | the loop over the files computes text, length and the three lists |
| `AttachedFiles.FilesArePartitioned` | src/personal_ai_secretary/context/files.py:62-111 | every file is in exactly one of complete, truncated and omitted |
| `AttachedFiles.CompleteFilesAreIntact` | src/personal_ai_secretary/context/files.py:92-98 | a file that fits whole when its turn comes is in the text word for word |
| `AttachedFiles.EveryFileGetsItsPart` | src/personal_ai_secretary/context/files.py:62-111 | what each file gets by its length and the room that is left: its name, a note, its whole content or its start, word for word, and the list that it is in |
| `AttachedFiles.TextIsBounded` | src/personal_ai_secretary/context/files.py:49-115 | the text is at most one character longer than the budget |
| `AttachedFiles.CutIsExact` | src/personal_ai_secretary/context/files.py:100-108 | a cut takes the text to the budget and one, less the white space stripped at the cut |
| `AttachedFiles.OverrunIffSolidCut` | src/personal_ai_secretary/context/files.py:62-111 | for every list of files the text is longer than the budget if and only if some file is cut behind a character that is no white space |
| `AttachedFiles.SolidFileOverruns` | src/personal_ai_secretary/context/files.py:100-108 | for instance 2000 characters without white space under a budget of 1500 give a text of 1501 |
| `AttachedFiles.OverrunIsFinal` | src/personal_ai_secretary/context/files.py:100-108 | the extra character comes from a cut file, and everything after it is left out |
| `AttachedFiles.CutEndsTextIff` | src/personal_ai_secretary/context/files.py:74-108 | a cut leaves what it strips, less three characters, as room, and ends the text if and only if no later file gets a part of that |
| `AttachedFiles.CutNeedNotBeLast` | src/personal_ai_secretary/context/files.py:100-108 | two files for which a cut file is followed by a complete one, because the cut text is stripped |
| `AttachedFiles.BuildMessageWithAttachments` | src/personal_ai_secretary/context/files.py:118-135 | the composed message |
| `AttachedFiles.InputIsIntact` | src/personal_ai_secretary/context/files.py:118-135 | the message ends with the intact input and is at most max(input, limit + 1) long |
| `AttachedFiles.FilesComeFirst` | src/personal_ai_secretary/context/files.py:118-135 | the parts of the files stand before the input if and only if one of them gets a part of the room that the input leaves |
| `ToolResults.PruneToolResults` | src/personal_ai_secretary/context/tools.py:52-85 | the loop over the prunable results computes messages, count and saving |
| `ToolResults.PruningKeepsTheRest` | src/personal_ai_secretary/context/tools.py:52-85 | length, roles, other messages and the newest results stay; a changed result is its shorter stub; the reported saving is exact |
| `ToolResults.PruningFitsOrExhausts` | src/personal_ai_secretary/context/tools.py:71-84 | afterwards the tool results fit, or no old one could be shorter |
| `ToolResults.PruningIsThrifty` | src/personal_ai_secretary/context/tools.py:73-84 | the oldest go first, and the last one that changed was needed to fit |
| `ToolResults.PruningIsIdempotent` | src/personal_ai_secretary/context/tools.py:52-85 | pruning twice is pruning once, even where a stub still reads like a result |
| `ToolResults.PrunableAreOld` | src/personal_ai_secretary/context/tools.py:64-69 | a result may be pruned exactly if at least the kept number of results follow it |
| `ToolResults.StubIsStable` | src/personal_ai_secretary/context/tools.py:30-36 | the stub of a stub is that stub |
| `ToolResults.StubNamesTool` | src/personal_ai_secretary/context/tools.py:30-36 | the result of a tool is recognized, and its stub names that tool |
| `ToolResults.ResultIff` | src/personal_ai_secretary/context/tools.py:25-27 | a message counts as a result exactly if it starts as one and has the mark somewhere |
| `ToolResults.PruningCountsChanges` | src/personal_ai_secretary/context/tools.py:52-85 | the reported number is that of the messages that changed |
| `ToolResults.OnlyResultsAreMeasured` | src/personal_ai_secretary/context/tools.py:47-49 | what is measured against the budget is the characters of the results alone |
| `ProjectTracking.ProjectContextTracker.Remember` | src/personal_ai_secretary/context/project.py:68-74 | one touch: to the end of the order, then eviction from its start |
| `ProjectTracking.ProjectContextTracker.NoteToolResult` | src/personal_ai_secretary/context/project.py:37-66 | the touches and the root that a tool result stands for |
| `ProjectTracking.ProjectContextTracker.Describe` | src/personal_ai_secretary/context/project.py:82-101 | the root, then the newest files up to the first that does not fit |
| `ProjectTracking.WorkingSetIsMostRecent` | src/personal_ai_secretary/context/project.py:68-74 | after any touches the working set is the given number of distinct paths touched last, in the order of their last touches, with their last sizes |
| `ProjectTracking.EvictionCommutes` | src/personal_ai_secretary/context/project.py:68-74 | evicting at every touch keeps what evicting once at the end would keep |
| `ProjectTracking.DescriptionIsBounded` | src/personal_ai_secretary/context/project.py:82-101 | the description is within the limit less two, unless prefix and root alone are longer |
| `ProjectTracking.ResultIsNoted` | src/personal_ai_secretary/context/project.py:37-66 | what a result does to any working set: a file that was read, created or modified becomes the newest with its size, several files in turn, and errors and other tools leave it |
| `ProjectTracking.RootIsAnalyzed` | src/personal_ai_secretary/context/project.py:56-59 | the root is the last project analyzed without an error |
| `ProjectTracking.DescriptionReads` | src/personal_ai_secretary/context/project.py:82-101 | the description is the root and then paths and sizes of the files touched last, the newest first |
| `JsonScanner.ExtractBalancedJson` | src/personal_ai_secretary/agents/builtin.py:1838-1867 | the scanning loop with its three flags computes the extraction |
| `JsonScanner.ExtractedIsShortest` | src/personal_ai_secretary/agents/builtin.py:1838-1867 | at an opening brace the shortest text in which as many opening as closing braces are neither escaped nor quoted, and nothing exactly if there is none; nothing anywhere else |
| `JsonScanner.ReadingIsCounting` | src/personal_ai_secretary/agents/builtin.py:1847-1863 | the two flags are the parities of the backslashes at the end and of the quotation marks not escaped, and the depth is the difference of the braces neither escaped nor quoted |
| `JsonScanner.ObjectIsExtracted` | src/personal_ai_secretary/agents/builtin.py:1838-1867 | for every JSON object as RFC 8259 (sections 2, 4, 5 and 7) writes it, and any surrounding text, exactly the object's text is returned |
| `JsonScanner.JsonIsNeutral` | src/personal_ai_secretary/agents/builtin.py:1847-1863 | reading any JSON text leaves quoting and depth as they were, and never goes below the starting depth |
| `ToolRegistration.ToolRegistry.NormalizeArguments` | src/personal_ai_secretary/tools/registry.py:146-195 | the loop over the arguments computes the normalized ones and counts what it did |
| `ToolRegistration.CanonicalWins` | src/personal_ai_secretary/tools/registry.py:160-183 | in every order of the arguments a canonical name wins over its aliases and the first alias over the others; nothing else gets in |
| `ToolRegistration.OnlyAllowedIffWellFormed` | src/personal_ai_secretary/tools/registry.py:158-183 | only allowed names come out of every normalization if and only if every alias stands for an allowed name |
| `ToolRegistration.NormalizationIsIdempotent` | src/personal_ai_secretary/tools/registry.py:146-195 | for well-formed aliases, normalizing again in any order changes and strips nothing |
| `ToolRegistration.ToolRegistry.ValidateArguments` | src/personal_ai_secretary/tools/registry.py:199-215 | the first error in the order unknown, missing, ill-typed |
| `ToolRegistration.CheckIsExact` | src/personal_ai_secretary/tools/registry.py:199-215 | validation passes exactly the allowed, complete and well-typed arguments |
| `ToolRegistration.OptionalCanBeLeftOut` | src/personal_ai_secretary/tools/registry.py:199-215 | of valid arguments exactly the optional ones can be left out |
| `ToolRegistration.DeclaredCanBeAdded` | src/personal_ai_secretary/tools/registry.py:199-215 | and exactly declared or optional ones can be added, with a value that passes |
| `ToolRegistration.TypesByValue` | src/personal_ai_secretary/tools/registry.py:199-215 | which values pass for which declared types |
| `ToolRegistration.ToolRegistry.AttemptArgumentRepair` | src/personal_ai_secretary/tools/registry.py:217-277 | the one repair and its counters |
| `ToolRegistration.ToolRegistry.Execute` | src/personal_ai_secretary/tools/registry.py:281-327 | the pipeline from normalization to the approval gate, and its counters |
| `ToolRegistration.ToolRegistry.Register` | src/personal_ai_secretary/tools/registry.py:115-118 | a tool of critical risk is never registered |
| `ToolRegistration.HandlerArgumentsAreValid` | src/personal_ai_secretary/tools/registry.py:305-327 | a handler runs only with valid arguments, with approval where needed, and with at most one entry repaired |
| `ToolRegistration.RunsExactlyIfAcceptable` | src/personal_ai_secretary/tools/registry.py:281-327 | the handler runs if and only if approval is in order and the arguments are valid, lack only a mode that the others tell, or have one number for a text |
| `ToolRegistration.HandlerIsGiven` | src/personal_ai_secretary/tools/registry.py:217-327 | what the handler is given whenever it runs: the normalized arguments if they are valid; with mode replace beside a search and else overwrite if they lack only the mode; and with one number written out if that stands for a text |
| `ToolRegistration.RefusalIsTrue` | src/personal_ai_secretary/tools/registry.py:281-327 | a refused call is told a fault of its normalized arguments, or of those with the one repair |
| `ToolRegistration.ApprovalIsAsked` | src/personal_ai_secretary/tools/registry.py:323-327 | approval is asked for exactly if it is needed, not given, and the arguments are acceptable |
| `ToolRegistration.CountersTell` | src/personal_ai_secretary/tools/registry.py:146-327 | the counters tell every stripped argument, every call not as declared, one repair or failed repair for each invalid one, and every refusal |
| `ToolRegistration.ContentRepairIsFutile` | src/personal_ai_secretary/tools/registry.py:253-262 | filling in a mode when the content is missing never helps |
| `ToolRegistration.ModeRepair` | src/personal_ai_secretary/tools/registry.py:237-251 | a filled-in mode makes the arguments valid exactly if only that was wrong |
| `ToolRegistration.NumberRepair` | src/personal_ai_secretary/tools/registry.py:264-274 | a number turned into a string makes the arguments valid exactly if only that was wrong |

## Left out

- Prompt text: system prompts, task contracts, directives and tool-result prompts are abstract messages; pruning is not applied inside the modelled loop but proved on its own.
- Call keys and registry keys: pairs instead of joined strings, so a colon inside a name cannot make two keys collide.
- Tool names: a datatype with one constructor for each name the control layer compares against, and one for all other strings.
- Extraction of several calls from one reply, response sanitizing, grounding, disclaimers, evidence tracking and the safety and preflight notes added to tool results: none of them changes the control flow modelled here.
- Metrics that only report (times, test counts, latency classes, suggested fallback models) and the metrics left unpublished when a provider crashes or answers with nothing.
- Result hashes of the progress detector: they are stored and never read.
- The disk that the loop itself looks at: functions of the path that stay the same during a run; the reading of a call's text into arguments is a function as well.
- Exceptions from results of an unexpected shape, which the program's own tools do not give.
- FallbackExactness.HopsAreBoundedExactlyWhenBacked: registries that mix verified and unverified live entries are left to OnlineHopsAreBoundedIff, since offline failures can retire the last verified entry and change what may be picked.
- Disk checks of the verifier: one boolean of the tool's result; which tools are verified, and when a result without output fails, is modelled.
- Task classification, risk, workflow gates, evaluator criteria and model scoring: settled by reading a branch or two.
- ModelManagement.ModelManager.Register: display names, context windows and capabilities of an entry are not modelled; the status FAILED is called Unreliable.
- ModelManagement.ModelManager.Initialize: discovery itself is network access; its result is a parameter.
- Database failures other than unique violations, session deletion, and isolation levels weaker than one atomic statement at a time.
- RequestServing.RequestService.CommitOutcome: the result text and the memory written after completion are not modelled.
- History.BuildHistory: Python object identity is modelled by numbering the normalized turns.
- Summary.BuildSummaryFromTurns: sentence splitting and the regular expressions are functions given as parameters.
- AttachedFiles.FormatAttachedFiles: extensions and decimal numbers are written by functions given as parameters.
- ProjectTracking.ProjectContextTracker.Describe: sizes are formatted by a function given as a parameter; a negative entry limit, on which the source fails, is excluded by the type.
- JsonScanner.ExtractBalancedJson: the start position is a natural number; outside of strings a backslash also skips a character, which is modelled but plays no part in JSON texts.
- ToolRegistration.ToolRegistry.AttemptArgumentRepair: errors are values, not messages searched for words, so names with commas or capitals are not confused.
- MetricSinking.PostgresMetricSink.Flush: a name that is counted for the first time while a flush waits for a record changes the dictionary it iterates over, so that the source raises and leaves the rest of the flush out; the run theorems cover what such a flush has written, since a flush may stop after any event there.
- FallbackExactness.OnlineHopsAreBoundedIff: where automatic routing finds no instance, only the sufficient half holds, since picking an entry that resolves to nothing ends a run.
- MetricSinking.PostgresMetricSink.Snapshot: counters are integers and durations reals, where the table stores floating-point numbers.
- MetricSinking.SnapshotNeverOvercounts: increments are natural numbers, as all of the program's own are.
- Token estimates and build times of the assembler.
- HTTP, authentication, user interface, tracing, audit, logging, migrations, file and command handlers: input and output.
