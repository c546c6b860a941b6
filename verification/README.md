# kabot: verified models of its core

kabot is a C++ agent runtime. This project models the parts of it that carry the hard invariants and proves
them with Dafny 4.11. `dafny verify dfyconfig.toml` checks all files together.

The parts, in the order in which they are worth reading:

- **Plan ordering** (`DependencyOrder`, `TaskDecomposer`). A plan is a list of tasks that name their prerequisites
  by title. `DependencyOrder` says, without queues or counters, what order a breadth-first removal of satisfied
  nodes must emit; `TaskDecomposer` runs the loop of the program and proves that it emits that order. From there:
  `DetectCycle` answers true exactly if there is a cycle, and `TopoSort` returns a permutation, prerequisites first,
  never back to a smaller depth, prerequisite-free tasks first in input order.
- **Conversation** (`Messages`, `ContextBuilder`, `Pairing`, `ProjectionLaws`, `Session`, `SessionStore`,
  `MemoryBlock`, `TurnLog`, `ToolGuard`, `AgentLoop`, `TurnLaws`). A session log is cut to a window, becomes a list of
  messages, is projected to a prompt, and grows by what the model and the tools answer, which are arbitrary. The main
  result is `AgentLoop.AgentLoop.Serve`: over any run of chat messages, resets, system messages and direct calls, with
  aborted turns and cancellation, and starting from any store whose logs are well formed, a list sent to the provider
  has each assistant message with calls followed at once by exactly one result per call, in order, and no other tool
  message, if and only if no call in it has an empty id. Nothing is asked of the history window: a window may start
  inside a block of results, and the cut of the projection always discards those. What the model answers is arbitrary.
  Ids that hold a NUL do no harm within one run of the program, and exactly they do across runs: a stored log can be
  taken up again if and only if none of its call ids holds one. No file is edited in any run that was not read
  successfully before. `TurnLaws` says what each turn does in terms of the model's responses alone: when a reply is
  sent back with a reminder, how the turn ends, what the tools are asked, and which prompts hold the text of the
  request.
- **Worker pool and claims** (`ThreadPool`, `TaskRuntime`, `TaskShutdown`). Threads are step machines at lock
  granularity, and a run is any list of steps. Nothing is lost or run twice, no wake-up is lost, a stopped pool drains;
  no task id is submitted twice, and the slot of an agent is exact if and only if no job throws after it gave its slot
  up while a newer task of the same agent is active. When the runtime has stopped, with the pool at work under it, every
  submitted job is finished and no slot is left, in any run.
- **Scheduler** (`CronService`). The store is edited in place. One pass runs exactly the due jobs; over any run of
  operations and restarts an `At` job is executed by the pass at most once, and an `Every` job at least its interval
  apart.
- **QQ bot lifecycle** (`QQBotChannel`). Starting, stopping, failing connects and the rebuild thread, guarded by a
  generation counter.

`Options` and `Json` are the shared value types.

## What was found

The proofs are about the code as it is. Where that differs from what its comments or its names suggest, the exact
condition is proved.

- The model does not always see the request it is to answer. In every prompt of a turn the message with the request
  (the guardrail reminder may quote its text) is there exactly if the user messages of the history window and the
  reminders given so far in the turn are at least two together, or no tool round has been run yet in the turn and the
  window has an assistant message (`AgentLoop.RequestIsShownIff`, and of its text `TurnLaws.RequestTextIsShownIff`). So
  on the second turn of a session, after one question and one answer, the first prompt holds the request and every
  prompt behind a tool round has lost it, until a reminder is given (`TurnLog.SecondPromptLosesInput`). On the first
  turn the first prompt is the system prompt alone (`AgentLoop.FirstPromptOfTurn`), and the request appears only behind
  both reminders (`TurnLog.RemindersBringInputBack`).
- Notifications and working-directory contexts are virtual messages, which the first stage of the projection removes, so
  they never reach the model (`TurnLog.NoticesNeverReachTheModel`).
- Projecting a prompt again changes it if a reminder was folded out of a three-user window, or if a call has an empty id
  (`ProjectionLaws.ProjectTwiceIff`; such lists: `ProjectionLaws.ReminderIsProjectedTwice`,
  `ProjectionLaws.EmptyIdIsProjectedTwice`).
- Texts are bound as C strings, so a saved message comes back unchanged exactly if it holds no NUL
  (`SessionStore.SavedMessagesComeBackIff`). The ids of calls are kept as JSON and those of results as C strings, so a
  paired log comes back paired exactly if no call id holds a NUL (`TurnLog.RereadIsPairedIff`); one call with such an id
  makes the first prompt after a restart ill formed (`TurnLog.TornLogBreaksPrompt`).
- `StripMemoryBlock` can leave an opening tag: `<kabot_</kabot_<kabot_</kabot_memory>memory>memory>memory>` becomes
  `<kabot_memory>` (`MemoryBlock.OpeningTagIsLeft`). It takes four `<`: of the replies with n of them none keeps an
  opening tag if and only if n is below four (`MemoryBlock.NoOpeningTagIsLeftIff`).
- `WaitForEmpty` looks at the active count only, so it can return while tasks are queued (`ThreadPool.IdleIsNotEmpty`,
  `ThreadPool.WaitForEmptyCanReturnEarly`).
- An exception after `ExecuteClaimedTask` released its slot clears the slot again, which may by then be that of the next
  task of the agent (`TaskRuntime.SlotsAreExactIffNoHarmfulThrow`, `TaskRuntime.LateThrowAdmitsSecondTask`).
- A run on request leaves an `At` job that is to be deleted after its run in the store. The next pass runs an `At` job
  again after a run on request exactly if it is to be deleted after its run and is due
  (`CronService.RunJobThenPass`, with a run of operations in `CronService.DueJobRunsTwice`).
- A `Stop` of a channel that is not running, while the handle of a rebuild thread was not taken yet, moves the handle
  into a local and returns, and the destructor of a joinable thread ends the process. That is exactly when a `Stop`
  does (`QQBotChannel.StopAbortsIff`). A rebuild whose client fails to connect leaves such a channel
  (`QQBotChannel.StopAfterFailedRebuildAborts`).
- A `Stop` that did not end the process can be followed by a running channel, without the owner starting it, exactly if
  its section leaves a rebuild thread that is past its look at the stop flag, or finds the flag cleared since
  (`QQBotChannel.StopIsLostIff`). In such a run the owner starts the channel while the rebuild thread is about to, and
  stops it: the call returns with the channel running (`QQBotChannel.StopReturnsWithRunningChannel`).
- A client that fails to connect takes down a newer client that is already installed
  (`QQBotChannel.RunningEndsIff`, `QQBotChannel.OlderClientStillConnects`).

## Model

| member | source | states |
|---|---|---|
| DependencyOrder.KahnOrderUnique | src/agent/planning/task_decomposer.cpp:126-165 | for a given dependency relation there is one order that lists exactly the nodes whose prerequisites it lists, prerequisites first, ready nodes by the position of their latest prerequisite and then by index |
| DependencyOrder.KahnOrderHoldsUnblocked | src/agent/planning/task_decomposer.cpp:100-123 | that order holds exactly the nodes that neither lie on a cycle nor have a direct or indirect prerequisite on one |
| DependencyOrder.KahnOrderCompleteIffAcyclic | src/agent/planning/task_decomposer.cpp:119-123 | it holds all nodes if and only if there is no cycle |
| DependencyOrder.KahnOrderByDepth | src/agent/planning/task_decomposer.cpp:153-163 | a node with a chain of n prerequisites is never followed by one without such a chain: depth does not decrease |
| DependencyOrder.KahnOrderStartsWithRoots | src/agent/planning/task_decomposer.cpp:144-149 | the nodes without prerequisites come first, in index order |
| DependencyOrder.PrereqsFirst | src/agent/planning/task_decomposer.cpp:153-163 | every prerequisite stands before its dependant |
| TaskDecomposer.BuildGraph | src/agent/planning/task_decomposer.cpp:82-98 | the adjacency lists are the resolved prerequisites turned round: task v stands in the list of u once for each time that v mentions u, and the in-degrees count them; the last task of a title is meant, unknown titles are ignored |
| TaskDecomposer.Popped | src/agent/planning/task_decomposer.cpp:108-111 | popping the head of the queue keeps the loop invariant |
| TaskDecomposer.Relaxed | src/agent/planning/task_decomposer.cpp:112-116 | relaxing one edge keeps the loop invariant: a node is pushed when its last counted prerequisite was popped, behind all nodes that were ready before |
| TaskDecomposer.Kahn | src/agent/planning/task_decomposer.cpp:100-117 | the loop terminates and pops the nodes in the order that `DependencyOrder` describes |
| TaskDecomposer.DetectCycle | src/agent/planning/task_decomposer.cpp:81-124 | true exactly if the resolved prerequisites have a directed cycle, self-dependencies, duplicate titles and repeated mentions included |
| TaskDecomposer.TopoSort | src/agent/planning/task_decomposer.cpp:126-165 | the result lists the tasks along that order, and is complete exactly if there is no cycle |
| TaskDecomposer.TopoSortIsDetermined | src/agent/planning/task_decomposer.cpp:126-165 | no other list meets the contract of `TopoSort` |
| TaskDecomposer.PickIsPermutation | src/agent/planning/task_decomposer.cpp:151-157 | a complete order picks each task once, equal tasks included |
| TaskDecomposer.TopoSortOnAcyclicPlan | src/agent/planning/task_decomposer.cpp:126-165 | on an acyclic plan the result is a permutation, prerequisites first, depth non-decreasing, prerequisite-free tasks first in input order |
| TaskDecomposer.ValidateResponse | src/agent/planning/task_decomposer.cpp:50-79 | no error exactly for an object with a task array within the limit whose items all have a non-empty title and instruction; otherwise the error names the first offending item |
| TaskDecomposer.Decompose | src/agent/planning/task_decomposer.cpp:222-297 | success exactly if the reply parses, validates, all its items can be read and the titles that their `depends_on` texts name have no cycle, all said of the JSON; then the plan holds one task for each item, rendered as below, prerequisites first and within the limit; each failure names its error and leaves the tasks that the code leaves |
| TaskDecomposer.ReadTask | src/agent/planning/task_decomposer.cpp:264-277 | an item is read exactly if its optional members are texts; the task has its title, instruction and effort, one of three priorities, and as prerequisites the text entries of its `depends_on` array, all of them, in order, other entries skipped |
| TaskDecomposer.NormalizePriority | src/agent/planning/task_decomposer.cpp:198-218 | in any case of letters `low` is low, `high`, `urgent`, `critical` and `important` are high, and any other text is medium |
| TaskDecomposer.NamedDepsAre | src/agent/planning/task_decomposer.cpp:82-98 | the prerequisites that the order is made of are those that the JSON names: item u is one of item i exactly if a text entry of i is the title of u and of no later item |
| TaskDecomposer.PlanPutsNamedFirst | src/agent/planning/task_decomposer.cpp:264-287 | in a successful plan the task of an item stands behind the task of the last item of each title that it names |
| ThreadPool.StepConserves | src/utils/thread_pool.hpp:14-42 | every step keeps: tasks leave the queue in order, each is queued, held by one worker or done, and the active count counts the workers inside a task |
| ThreadPool.TasksAreConserved | src/utils/thread_pool.hpp:14-63 | in every interleaving each accepted task is in exactly one place, once, and tasks leave in the order of acceptance |
| ThreadPool.StepKeepsWakeUps | src/utils/thread_pool.hpp:20-27 | every step keeps: while a worker sleeps there is a notification in flight or a worker on its way for each queued task |
| ThreadPool.QueuedWorkFindsAWorker | src/utils/thread_pool.hpp:20-63 | with work queued and no notification in flight some worker is awake, and if one sleeps another is on its way to the queue |
| ThreadPool.ShutdownDrains | src/utils/thread_pool.hpp:74-85 | when `Shutdown` returns the active count is 0, and all accepted tasks are done exactly if there is a worker or nothing was accepted |
| ThreadPool.IdleIsNotEmpty | src/utils/thread_pool.hpp:87-91 | with an active count of 0 all accepted tasks are done exactly if the queue is empty and no worker stands between its pop and its increment |
| ThreadPool.WaitForEmptyCanReturnEarly | src/utils/thread_pool.hpp:87-91 | a run in which `WaitForEmpty` would return although a task is queued |
| ThreadPool.StoppedPoolProgresses | src/utils/thread_pool.hpp:18-41 | once stopping, every possible step lowers a measure and puts no worker to sleep |
| ThreadPool.StoppedPoolTerminates | src/utils/thread_pool.hpp:74-85 | no schedule of a stopping pool is longer than that measure |
| ThreadPool.StoppedPoolCanMove | src/utils/thread_pool.hpp:74-85 | a stopping pool can always make a step other than a spurious wake-up until `Shutdown` has returned |
| ThreadPool.CountedWorkersCount | src/utils/thread_pool.hpp:34-37 | the counter is never lowered from zero |
| ThreadPool.ThreadPool.SubmitSection | src/utils/thread_pool.hpp:54-61 | the locked part of `Submit` does the step `Submit`, or drops the task of a stopped pool |
| ThreadPool.ThreadPool.FetchSection | src/utils/thread_pool.hpp:20-28 | the locked part of the worker loop does the step `Fetch`: take the head, leave, or sleep |
| ThreadPool.ThreadPool.CountUpSection | src/utils/thread_pool.hpp:29-32 | the worker counts itself as active |
| ThreadPool.ThreadPool.CountDownSection | src/utils/thread_pool.hpp:34-37 | the worker counts itself out |
| ThreadPool.ThreadPool.StopSection | src/utils/thread_pool.hpp:75-78 | `Shutdown` sets the stop flag |
| TaskRuntime.StepKeepsNoIdTwice | src/task/task_runtime.cpp:310-340 | every step keeps: submitted ids are distinct and claimed, and an agent is active only on an id it took |
| TaskRuntime.NoTaskIsSubmittedTwice | src/task/task_runtime.cpp:310-340 | whatever the relay answers, over all agents and interleavings no id reaches the pool twice, active ids are claimed, and no two agents are active on one id |
| TaskRuntime.StepKeepsSlots | src/task/task_runtime.cpp:609-775 | a step keeps the slots exact if and only if it is not an exception after the release that meets a newer task of the agent |
| TaskRuntime.SlotsAreExactIffNoHarmfulThrow | src/task/task_runtime.cpp:310-775 | at every point of a run the slot of an agent holds t exactly if t is its one submitted task that has not released it, if and only if no such exception occurs |
| TaskRuntime.LateThrowAdmitsSecondTask | src/task/task_runtime.cpp:753-775 | a run after which one agent has two unreleased tasks |
| TaskRuntime.StopLeavesNoSlot | src/task/task_runtime.cpp:229-246 | in every run, late exceptions included: when all threads have left and all jobs are finished no slot is taken |
| TaskShutdown.StepKeepsInv | src/task/task_runtime.cpp:319-333 | every step of poll threads, jobs, workers and `Stop` together keeps: the jobs are the tasks the pool accepted, those the pool has done are finished, and the pool is stopped only when the poll threads have left |
| TaskShutdown.StopLeavesNothing | src/task/task_runtime.cpp:229-246 | in every run of a pool with workers, late exceptions included: when `Shutdown` has returned every submitted job is finished and no slot is taken |
| TaskRuntime.TaskRuntime.HasPendingTaskForLocalAgent | src/task/task_runtime.cpp:859-867 | true exactly if the agent has a slot or some key of the waiting tasks is mapped to it |
| TaskRuntime.CheckMeans | src/task/task_runtime.cpp:310-318 | in a running system the check moves an idle poll thread on to asking exactly if its agent has no slot and no waiting task of its own; it changes nothing else |
| TaskRuntime.ClaimMeans | src/task/task_runtime.cpp:312-318 | an asking thread comes back with a task exactly if the relay gives one with an id |
| TaskRuntime.TasksAlwaysHaveIds | src/task/task_runtime.cpp:312-326 | in no run a task without an id reaches the pool |
| TaskRuntime.FiledTaskBlocksAgent | src/task/task_runtime.cpp:310-616 | once a job gave its slot up to wait for its user, and as long as that entry stays, no task of its agent is submitted, whatever happens |
| TaskRuntime.TaskRuntime.RecordSection | src/task/task_runtime.cpp:319-326 | the locked part of the claim does the step `Record`, and skips an id that was claimed before |
| TaskRuntime.TaskRuntime.ReleaseSection | src/task/task_runtime.cpp:609-616 | filing a waiting task and giving the slot up does the step `Release` |
| TaskRuntime.TaskRuntime.ClearActiveTask | src/task/task_runtime.cpp:881-884 | clearing the slot in a catch block does the step `Throw`, by agent name only |
| ContextBuilder.DropVirtual | src/agent/context_builder.cpp:222-226 | stage 1 keeps exactly the non-virtual messages, in order |
| ContextBuilder.FindCut | src/agent/context_builder.cpp:228-251 | stage 2 finds the third user message from the end, else the last assistant message, else the end |
| ContextBuilder.ShrinkHead | src/agent/context_builder.cpp:253-282 | stage 3 changes only messages before the cut: long tool results and images |
| ContextBuilder.Snip | src/agent/context_builder.cpp:284-293 | stages 3 and 4 leave the system messages before the cut, without images, and the whole tail: the truncation affects nothing that is kept |
| ContextBuilder.PairResults | src/agent/context_builder.cpp:295-317 | stage 5 appends one placeholder for each call id without a result, in some order |
| ContextBuilder.CoalesceReminders | src/agent/context_builder.cpp:319-330 | stage 6 folds each reminder into the tool message before it |
| ContextBuilder.ProjectMessages | src/agent/context_builder.cpp:220-333 | the six stages in place compute the closed form |
| Pairing.PairedMeansAnswered | src/agent/context_builder.cpp:295-317 | a list splits into blocks exactly if, position by position, every call is answered at once in order and every tool message belongs to a call |
| Pairing.KeptIsPaired | src/agent/context_builder.cpp:228-293 | stages 1 to 4 keep a list of blocks a list of blocks |
| Pairing.CoalescePaired | src/agent/context_builder.cpp:319-330 | so does stage 6 |
| Pairing.ProjectionIsPaired | src/agent/context_builder.cpp:220-333 | the projection of a list of blocks is one exactly if no call in the window has an empty id |
| ProjectionLaws.EveryCallHasAResult | src/agent/context_builder.cpp:295-333 | for every input each call id in the output has a tool message with that id |
| ProjectionLaws.HeadIsSent | src/agent/context_builder.cpp:253-293 | each visible system message before the cut is sent, its images as texts |
| ProjectionLaws.TailIsSent | src/agent/context_builder.cpp:284-293 | each visible message of the tail is sent as it is, unless it is a result or a reminder |
| ProjectionLaws.ResultIsSent | src/agent/context_builder.cpp:319-330 | each result of the tail is sent under its id and name, its text behind the reminders folded into it |
| ProjectionLaws.MissingResultIsNamed | src/agent/context_builder.cpp:295-317 | a call that is kept without a result gets one that says so |
| ProjectionLaws.TailIsEmptyIff | src/agent/context_builder.cpp:228-251 | nothing is protected exactly if there are fewer than three user messages and no assistant message |
| ProjectionLaws.InputSurvivesIff | src/agent/context_builder.cpp:220-333 | what is sent ends with the user message that the list ends with, reminders folded, exactly if the list has three user messages or an assistant message |
| ProjectionLaws.CurrentInputSurvivesIff | src/agent/context_builder.cpp:128-333 | the current input is in the first prompt of a turn exactly if the history has two user messages or an assistant message |
| ProjectionLaws.InputStaysIff | src/agent/context_builder.cpp:220-333 | a user message that is not a reminder and that at most two others follow is in what is sent exactly if there are three user messages in all, or the last assistant message stands before it |
| ProjectionLaws.FirstPromptIsSystemPrompt | src/agent/context_builder.cpp:128-333 | with an empty history the first prompt of a turn is the system prompt alone |
| ProjectionLaws.ProjectTwiceIff | src/agent/context_builder.cpp:220-333 | a second projection changes nothing exactly if no call in the window has an empty id and no reminder is folded in a window of three users |
| ProjectionLaws.ReminderIsProjectedTwice | src/agent/context_builder.cpp:319-330 | a list without empty ids that a second projection changes |
| ProjectionLaws.EmptyIdIsProjectedTwice | src/agent/context_builder.cpp:295-317 | a list without reminders that a second projection changes |
| Session.UsageRoundTrip | src/session/session_manager.cpp:103-118 | usage counters survive the stored text |
| Session.Session.AddMessage | src/session/session_manager.cpp:103-118 | appends one entry and changes nothing else but the time |
| Session.Session.AddToolMessage | src/session/session_manager.cpp:120-128 | the same for a tool result |
| Session.Session.TakePendingNotifications | src/session/session_manager.cpp:145-156 | returns the text entries of the queue, all of them, in order, and removes the queue and nothing else from the metadata |
| Session.Session.GetHistory | src/session/session_manager.cpp:158-213 | returns the longest suffix of at most n messages and three user messages that starts at a user message, or the last n messages if none is in reach |
| Session.HistoryMeans | src/session/session_manager.cpp:158-205 | such a window ends where the log ends and is no longer than asked; with a user message in reach it starts at one and could only be longer with a fourth, and without one it is as long as it may be |
| Session.HistoryPairedIff | src/session/session_manager.cpp:158-205 | a window of a paired log is paired exactly if it holds a user message or does not start with a tool result |
| SessionStore.ToolCallsRoundTrip | src/session/session_manager.cpp:27-71 | what is written to the tool call column reads back as the same calls |
| SessionStore.ToolCallsAreParsed | src/session/session_manager.cpp:27-53 | what any text in that column reads as: no array means no calls, a missing id or name is empty, one that is no text throws, arguments that are no text are printed |
| SessionStore.CStrIsFront | src/session/session_manager.cpp:275-300 | a text column keeps the longest front without a NUL |
| SessionStore.CStrKeepsIff | src/session/session_manager.cpp:275-300 | a text column keeps a text exactly if it holds no NUL |
| SessionStore.LoadAfterSave | src/session/session_manager.cpp:257-414 | a load returns the messages of the last save of the key, each as its columns give it back, in order |
| SessionStore.StoreStaysOrdered | src/session/session_manager.cpp:278-315 | saves and deletes keep the rows in the order of their ids, in which they are loaded |
| SessionStore.SavedMessagesComeBackIff | src/session/session_manager.cpp:257-414 | they come back unchanged exactly if no text in them holds a NUL |
| SessionStore.OtherSessionsUntouched | src/session/session_manager.cpp:278-335 | saving or deleting a key leaves what is loaded under any other key as it was |
| SessionStore.DeletedSessionIsGone | src/session/session_manager.cpp:317-335 | a deleted key loads nothing |
| SessionStore.CleanSessionComesBack | src/session/session_manager.cpp:257-414 | a session whose texts hold no NUL comes back whole but for the set of read files |
| SessionStore.SessionManager.Load | src/session/session_manager.cpp:359-414 | throws exactly if the session has a row whose tool call column holds members that are not text; otherwise the loop over the rows computes the lookup |
| SessionStore.StoreStaysReadable | src/session/session_manager.cpp:27-71 | tables to which only saves and deletes were applied never make a load throw |
| SessionStore.SessionManager.GetOrCreate | src/session/session_manager.cpp:228-242 | returns a copy of what is cached, else stored, else a new session, and caches it, unless the load throws; keeps cache and tables coherent |
| SessionStore.SessionManager.Get | src/session/session_manager.cpp:244-255 | the same without creating |
| SessionStore.SessionManager.Save | src/session/session_manager.cpp:257-315 | replaces the rows of the session by one row per message and caches it; keeps cache and tables coherent |
| SessionStore.SessionManager.Delete | src/session/session_manager.cpp:317-335 | removes the session from cache and tables and nothing else; keeps them coherent |
| SessionStore.SaveKeepsCoherence | src/session/session_manager.cpp:257-315 | after a save every cached session that has a row equals what a load returns, read files apart |
| MemoryBlock.StripOpenLoop | src/agent/agent_loop.cpp:75-93 | the first loop terminates and computes its recursive form |
| MemoryBlock.StripCloseLoop | src/agent/agent_loop.cpp:95-107 | so does the second |
| MemoryBlock.StripMemoryBlock | src/agent/agent_loop.cpp:62-126 | the four loops terminate on every string; the result is the trimmed composition of their forms |
| MemoryBlock.StrippedIsSubsequence | src/agent/agent_loop.cpp:62-126 | the result is a subsequence of the input |
| MemoryBlock.NoClosingTagIsLeft | src/agent/agent_loop.cpp:109-126 | in no result is a closing tag left, in any case of letters |
| MemoryBlock.NoOpeningTagIsLeft | src/agent/agent_loop.cpp:62-126 | a reply with fewer than four `<` keeps no opening tag, in any case of letters |
| MemoryBlock.OpeningTagIsLeft | src/agent/agent_loop.cpp:62-126 | a reply with four that keeps one |
| MemoryBlock.NoOpeningTagIsLeftIff | src/agent/agent_loop.cpp:62-126 | of the replies with n of `<` none keeps an opening tag, if and only if n is below four |
| MemoryBlock.JoinHasBlock | src/agent/agent_loop.cpp:33-46 | three texts without `<` and the two tags between them have the form the next two laws are about |
| MemoryBlock.ExtractsTheBlock | src/agent/agent_loop.cpp:33-46 | on a reply with one block `ExtractMemoryBlock` returns the trimmed text between the tags |
| MemoryBlock.StripsTheBlock | src/agent/agent_loop.cpp:62-126 | and `StripMemoryBlock` the trimmed text around them |
| MemoryBlock.BlockIsCutOut | src/agent/agent_loop.cpp:33-126 | for any texts without `<` before, in and behind the block: the block is stored, and the texts around it, joined, are answered |
| MemoryBlock.ExtractsFirstBlock | src/agent/agent_loop.cpp:33-46 | of several blocks the first is extracted, up to the closing tag next to its opening tag |
| MemoryBlock.ExtractsNothing | src/agent/agent_loop.cpp:33-46 | a reply without an opening tag in front of a closing one gives no block |
| MemoryBlock.LoneOpeningTagIsCutOut | src/agent/agent_loop.cpp:75-93 | an opening tag without a closing one goes up to its bracket, and the text behind it stays |
| MemoryBlock.TornOpeningTagIsCutOut | src/agent/agent_loop.cpp:75-93 | one without a bracket goes, and the text behind it stays |
| MemoryBlock.DressedBlockIsCutOut | src/agent/agent_loop.cpp:75-93 | a block whose opening tag holds more than its name goes whole |
| MemoryBlock.LoneClosingTagIsCutOut | src/agent/agent_loop.cpp:95-107 | a closing tag alone goes up to its bracket |
| MemoryBlock.TornClosingTagIsCutOut | src/agent/agent_loop.cpp:95-107 | and one without a bracket goes |
| MemoryBlock.TrimIs | src/agent/agent_loop.cpp:26-31 | trimming takes the six blanks off both ends and nothing else |
| TurnLog.LogMirrorsRound | src/agent/agent_loop.cpp:671-688 | what the log keeps of a round reads back as what was appended to the list of messages |
| TurnLog.RereadIsPairedIff | src/session/session_manager.cpp:27-71 | a paired log comes back paired from the tables exactly if no call id holds a NUL |
| TurnLog.TornLogIsNotPaired | src/session/session_manager.cpp:257-414 | a log of one call whose id holds a NUL does not |
| TurnLog.TornLogExists | src/session/session_manager.cpp:257-414 | such a log, spelled out |
| TurnLog.TornLogBreaksPrompt | src/agent/agent_loop.cpp:409-446 | with it the first prompt after a restart is not paired, though its call has an id |
| TurnLog.SavedLogLoadsIff | src/session/session_manager.cpp:257-414 | what a turn saves can be taken up by another run of the program exactly if no call id in it holds a NUL |
| TurnLog.RereadKeepsGood | src/session/session_manager.cpp:385-405 | a well-formed log whose ids hold no NUL is one again after it went through the tables |
| TurnLog.NewStoreIsGood | src/session/session_manager.cpp:416-445 | the tables of a new store hold no log that is not well formed and no row that cannot be read |
| TurnLog.InsertKeepsGood | src/session/session_manager.cpp:257-315 | saving a well-formed log keeps all stored logs well formed |
| TurnLog.EraseKeepsGood | src/session/session_manager.cpp:317-335 | so does deleting |
| TurnLog.SuffixOfPaired | src/session/session_manager.cpp:164-180 | any window of a paired log is some results without their calls, then a paired list |
| TurnLog.PromptPairedIff | src/agent/context_builder.cpp:220-333 | whatever window a turn starts with, the projection of its list is paired exactly if no call in it has an empty id |
| TurnLog.FirstListIsHeaded | src/agent/agent_loop.cpp:409-446 | the list a turn starts from, with contexts and notifications, has the form that law is about |
| TurnLog.HeadedGrows | src/agent/agent_loop.cpp:671-708 | and so has that list after any pass of the loop |
| TurnLog.NoticesNeverReachTheModel | src/agent/context_builder.cpp:222-226 | virtual messages make no difference to any prompt |
| TurnLog.InputInPromptIff | src/agent/agent_loop.cpp:657-708 | the same of the list that a turn has come to, with contexts, notices and whatever its passes added: the request is in what is sent exactly if user messages of the history and reminders are at least two, or no round was run and the history has an assistant message |
| TurnLog.SecondPromptLosesInput | src/agent/agent_loop.cpp:657-688 | a history of one question and one answer: the first prompt holds the request, the one behind a round does not |
| TurnLog.RemindersBringInputBack | src/agent/agent_loop.cpp:657-708 | without history: the first prompt does not hold the request, the one behind both reminders does |
| AgentLoop.OpenKeepsStore | src/session/session_manager.cpp:228-242 | in any run a session is opened without an exception, and its log is well formed |
| AgentLoop.AgentLoop.ExecuteToolWithGuardrails | src/agent/agent_loop.cpp:946-978 | an edit without a path, or of a file that was not read in this session, is answered with its error text and not executed; any other call is executed once; a path is recorded exactly for a `read_file` whose result is neither empty nor an error |
| AgentLoop.AgentLoop.ExecuteCalls | src/agent/agent_loop.cpp:676-688 | each call gets the result that its tool gives behind all calls before it, in the list and in the log, unless the turn is cancelled or a tool throws; the last `plan_work` result is kept; no edit runs before a read |
| ToolGuard.CallsAreExecuted | src/agent/agent_loop.cpp:946-978 | of the answered calls each is executed, in order, and has the result its tool gave, unless it edits a file not read before, in the session or by one of them; such a call is turned down; exactly the files read successfully count as read |
| TurnLaws.TurnExecutes | src/agent/agent_loop.cpp:676-978 | the same of whole turns, from the files the session had read to those it is saved with |
| AgentLoop.AgentLoop.Pass | src/agent/agent_loop.cpp:657-712 | one pass sends the projection of the list, then runs the calls, asks once more because of the guardrail or an empty reply, or accepts the reply; it breaks off only if it is cancelled or the model or a tool throws |
| TurnLaws.PassMeans | src/agent/agent_loop.cpp:666-708 | each pass of a turn is what the response to its prompt calls for: a round exactly if there are calls; the guardrail, with the text of the request, exactly if there are none, the request needs it and no round or guardrail came before; the reminder exactly if there are none, each character is one of six blanks, and a round but no such reminder came before |
| TurnLaws.EndMeans | src/agent/agent_loop.cpp:657-720 | a turn ends with the reply to its last prompt exactly if that has no calls and needs neither; else with the last `plan_work` result of its last pass, or with nothing when no pass is left; it fails exactly because it was cancelled or because the model or a tool threw |
| TurnLaws.TurnMeans | src/agent/agent_loop.cpp:409-720 | both of the turns of the three entry points, with the settings of the loop |
| TurnLaws.SentMeans | src/agent/agent_loop.cpp:680-682 | a turn has sent a message by itself exactly if a call of one of its rounds is `send_message` |
| AgentLoop.FlagsMean | src/agent/agent_loop.cpp:629-636 | the flags of a turn say which passes occurred, so each reminder is given at most once |
| AgentLoop.AgentLoop.TurnLoop | src/agent/agent_loop.cpp:629-712 | the loop ends within the iteration limit; each prompt is the projection of the first list and all passes before it, paired exactly if it has no empty id; the turn ends with an accepted reply, a plan or nothing; the log grows by the rounds |
| AgentLoop.TurnPromptsArePaired | src/agent/agent_loop.cpp:657-712 | every prompt of a turn is paired exactly if no call in it has an empty id, and there is at most one more of them than passes |
| AgentLoop.RemindersAreFew | src/agent/agent_loop.cpp:689-708 | the passes of a turn that end with a reminder are as many as the flags say, so at most two |
| AgentLoop.SentInTurn | src/agent/agent_loop.cpp:657-665 | the prompt behind so many passes of a turn is the projection of its first list and what they added |
| AgentLoop.RequestIsShownIff | src/agent/agent_loop.cpp:657-708 | in every prompt of any turn the request is shown exactly under that condition, on the history window and the passes before that prompt |
| AgentLoop.FirstPromptOfTurn | src/agent/agent_loop.cpp:409-446 | with an empty window the first prompt of any turn is the system prompt alone, contexts and notices included |
| AgentLoop.AgentLoop.TurnShowsRequestIff | src/agent/agent_loop.cpp:409-712 | the same of the turns that the three entry points do |
| TurnLaws.RequestTextIsShownIff | src/agent/agent_loop.cpp:409-712 | in every prompt of such a turn the text of the request, and no other, stands in the parts of a user message, exactly under that condition |
| TurnLaws.FirstListMeans | src/agent/agent_loop.cpp:409-446 | the first list field by field: system prompt, contexts, window, one visible user message with the images in order and the text of the request as its last part, and one notice for each queued text |
| TurnLaws.RequestsDiffer | src/agent/context_builder.cpp:424-497 | two requests with another text or other images do not make the same message |
| AgentLoop.AgentLoop.StartTurn | src/agent/agent_loop.cpp:409-446 | the first list is the one `FirstListMeans` describes, on the window of the log; the log gets the input; the queue of notifications is removed |
| AgentLoop.AgentLoop.FinishTurn | src/agent/agent_loop.cpp:545-552 | the stripped reply, or the fallback text, is logged and the session saved with its dates and the files read |
| AgentLoop.AgentLoop.AppendMemoryEntry | src/agent/agent_loop.cpp:781-795 | writes one entry for a memory block with something to write, and nothing else; fails only there |
| AgentLoop.AgentLoop.RunTurn | src/agent/agent_loop.cpp:409-554 | a turn that gets past its loop saves the old log, the input, the rounds and the reply, and then writes its memory block once, which alone can still throw; one that throws before leaves the tables as they were |
| TurnLaws.TurnIsSaved | src/agent/agent_loop.cpp:545-554 | a turn that ends is in the store: its session loads with the input, the rounds and the reply behind the old log, every other session as before, and the memory block is noted once; a turn that fails leaves tables, cache and memory as they were |
| AgentLoop.AgentLoop.ProcessMessage | src/agent/agent_loop.cpp:557-739 | the same for chat messages; `/new` and the blanks behind it are cut off and delete the session first, which stays deleted if the turn behind it throws; alone it sends nothing to the model |
| AgentLoop.AgentLoop.ProcessDirect | src/agent/agent_loop.cpp:383-555 | the same for direct calls with contexts and a cancel token |
| AgentLoop.AgentLoop.ProcessSystemMessage | src/agent/agent_loop.cpp:820-944 | the same for system messages, logged with their prefix |
| AgentLoop.AgentLoop.ServeOne | src/agent/agent_loop.cpp:321-372 | any one request keeps the store and the prompts such |
| AgentLoop.AgentLoop.Serve | src/agent/agent_loop.cpp:321-372 | over any run, in a list sent to the provider every call is answered at once and in order and every tool message belongs to a call, if and only if no call in it has an empty id; no file was ever edited that had not been read successfully before; the store stays such that this goes on |
| CronService.NextRunIs | src/cron/cron_service.cpp:440-475 | the next run is: of an `At` job its time, exactly if that lies ahead; of an `Every` job now and its interval, exactly if that is there and positive; of a cron job what its expression gives, if it is not empty |
| CronService.SurvivorOrigin | src/cron/cron_service.cpp:196-214 | each job left by a pass is one that was not due, unchanged, or one that ran and did not expire |
| CronService.SurvivorsComplete | src/cron/cron_service.cpp:209-214 | every such job is left |
| CronService.DueRunOrigin | src/cron/cron_service.cpp:196-202 | each execution of a pass is of a due job |
| CronService.DueJobRuns | src/cron/cron_service.cpp:196-202 | each due job is executed |
| CronService.DueRunsDistinct | src/cron/cron_service.cpp:196-202 | and none twice |
| CronService.PassRunsIff | src/cron/cron_service.cpp:196-202 | a pass executes a job exactly if it is enabled and its next run is not later than the start of the pass |
| CronService.PassRunsInOrder | src/cron/cron_service.cpp:196-202 | in the order of the store |
| CronService.PassLeaves | src/cron/cron_service.cpp:189-219 | what a pass leaves of a job: itself if it was not due; nothing of an `At` job that is to be deleted; a disabled `At` job; else the job, enabled, with the next run of its schedule from the moment it was rescheduled |
| CronService.PassKeeps | src/cron/cron_service.cpp:189-219 | a pass keeps the history: no `At` job again, `Every` jobs far enough apart, ids unique |
| CronService.RecomputeKeeps | src/cron/cron_service.cpp:370-393 | so does computing the next runs anew at a start |
| CronService.SwitchKeeps | src/cron/cron_service.cpp:148-164 | so does enabling or disabling a job |
| CronService.ForcedKeeps | src/cron/cron_service.cpp:166-179 | so does a run on request |
| CronService.AddKeeps | src/cron/cron_service.cpp:115-133 | so does adding a job |
| CronService.CronService.ExecuteJob | src/cron/cron_service.cpp:395-438 | one job runs, is found again by its id, and is marked, disabled or rescheduled; true exactly for an `At` job that is to be deleted |
| CronService.CronService.RunDueJobs | src/cron/cron_service.cpp:189-219 | one pass executes exactly the jobs that were due at its start, in store order, and leaves the store described by `Survivors` |
| CronService.CronService.RecomputeNextRuns | src/cron/cron_service.cpp:370-393 | enabled jobs get a new next run; past `At` jobs are dropped |
| CronService.CronService.Start | src/cron/cron_service.cpp:87-92 | loads, recomputes and saves |
| CronService.StartLeaves | src/cron/cron_service.cpp:370-393 | a start drops exactly the enabled `At` jobs whose time is over; all others stay, the enabled ones with the next run of their schedule from now |
| CronService.CronService.AddJob | src/cron/cron_service.cpp:115-133 | appends the job with the clock as its dates and exactly that next run, or nothing if it has none; the id is not in the store, and the id of an `At` or `Every` job is new |
| CronService.CronService.RemoveJob | src/cron/cron_service.cpp:135-146 | removes the jobs of the id and nothing else; tells whether there was one |
| CronService.RemovalLeaves | src/cron/cron_service.cpp:135-146 | what is left of the store are the jobs of other ids |
| CronService.CronService.EnableJob | src/cron/cron_service.cpp:148-164 | switches the job of the id and no other; switched on, its next run is exactly that of its schedule, and off it has none |
| CronService.CronService.RunJob | src/cron/cron_service.cpp:166-179 | executes an enabled job, or any if forced; the job stays in the store even if it is to be deleted after its run |
| CronService.StillDueIff | src/cron/cron_service.cpp:395-438 | after a run an `At` job is due exactly if it is to be deleted after its run and was due |
| CronService.PassRunsJobIff | src/cron/cron_service.cpp:189-219 | a pass executes a job of the store exactly if it is due |
| CronService.PassThenPass | src/cron/cron_service.cpp:189-219 | of two passes the second executes an `Every` job that the first executed exactly if it does not start before the reschedule reading and the interval |
| CronService.RunJobThenPass | src/cron/cron_service.cpp:166-219 | the pass after a run on request executes an `At` job again exactly if it is to be deleted after its run and is due |
| CronService.DueJobRunsTwice | src/cron/cron_service.cpp:166-219 | a run of operations that executes one `At` job twice |
| CronService.Perform | src/cron/cron_service.cpp:87-219 | over any run of operations and restarts an `At` job is executed by `RunDueJobs` at most once, and successive starts of an `Every` job are at least its interval apart; ids of removed cron-expression jobs may be given again |
| QQBotChannel.StepKeepsValid | src/channels/qqbot_channel.cpp:86-301 | every step keeps the invariant, and the generation never decreases |
| QQBotChannel.RunsIffInstalled | src/channels/qqbot_channel.cpp:86-193 | in every interleaving the channel runs exactly if a client is installed, which is then the one of the current generation; generations of clients increase; dispatch events are accepted from the installed client and from no other |
| QQBotChannel.GoneStaysGone | src/channels/qqbot_channel.cpp:115-168 | a client that was removed or discarded never gets a dispatch event through again |
| QQBotChannel.StopAbortsIff | src/channels/qqbot_channel.cpp:169-209 | a call of `Stop` ends the process exactly if the channel is not running and the handle of a rebuild thread was not taken yet |
| QQBotChannel.OnlyStopAborts | src/channels/qqbot_channel.cpp:86-306 | no other step ends the process |
| QQBotChannel.StopAfterFailedRebuildAborts | src/channels/qqbot_channel.cpp:157-209 | a run in which it does: a rebuild whose client fails to connect, then `Stop` |
| QQBotChannel.MayRunAgainIff | src/channels/qqbot_channel.cpp:258-306 | a channel that is down can come up without its owner exactly if its rebuild thread is past its look at the stop flag, or the flag is not set and a rebuild is past its first check or a client of the current generation can still report an error |
| QQBotChannel.StopIsLostIff | src/channels/qqbot_channel.cpp:169-306 | a call of `Stop` that did not end the process can return and be followed by a running channel, without the owner, exactly if its section leaves such a channel |
| QQBotChannel.StopOfRunningChannel | src/channels/qqbot_channel.cpp:169-209 | a running channel is left so exactly by a rebuild thread past its look at the flag, or past its first check with the flag cleared by another start |
| QQBotChannel.JoinReturnsIff | src/channels/qqbot_channel.cpp:199-301 | in every interleaving the join of a rebuild thread returns exactly if that thread is not the one at work: a later one was made, or none is |
| QQBotChannel.StopReturnsWithRunningChannel | src/channels/qqbot_channel.cpp:258-306 | a run in which `Stop` joins the rebuild thread, returns, and the channel runs |
| QQBotChannel.RunningEndsIff | src/channels/qqbot_channel.cpp:146-193 | a running channel is ended by exactly a stop, a rebuild or an older client that fails to connect, and in the last case other events of the dropped client still pass |
| QQBotChannel.OlderClientStillConnects | src/channels/qqbot_channel.cpp:86-167 | a run with a running client and an older one still connecting |
| QQBotChannel.QQBotChannel.BeginSection | src/channels/qqbot_channel.cpp:90-110 | the first locked part of `Start` does its step and names the client it made |
| QQBotChannel.QQBotChannel.InstallSection | src/channels/qqbot_channel.cpp:145-156 | the second installs the client or discards it |
| QQBotChannel.QQBotChannel.FailSection | src/channels/qqbot_channel.cpp:157-166 | the catch block drops whatever client is installed |
| QQBotChannel.QQBotChannel.StopInternalSection | src/channels/qqbot_channel.cpp:174-209 | the locked part of `StopInternal` removes the client and ends its generation; for an external stop it takes the thread handle, to join it, or to end the process if there was nothing to remove |
| QQBotChannel.QQBotChannel.CheckEvent | src/channels/qqbot_channel.cpp:115-134 | the checks of the event handler |
| QQBotChannel.QQBotChannel.ScheduleClientRebuild | src/channels/qqbot_channel.cpp:258-264 | one rebuild thread at a time |
| QQBotChannel.QQBotChannel.SpawnSection | src/channels/qqbot_channel.cpp:266-301 | the thread is made and its handle kept, the handle of the one before being joined |
| QQBotChannel.QQBotChannel.WakeSection | src/channels/qqbot_channel.cpp:272-281 | the first check of the thread |
| QQBotChannel.QQBotChannel.DecideSection | src/channels/qqbot_channel.cpp:286-289 | its look at the stop flag |
| QQBotChannel.QQBotChannel.RebuildThread | src/channels/qqbot_channel.cpp:272-300 | undisturbed, the thread does its four steps in order |

## Left out

- Threads are steps on values: memory models, fairness of the scheduler and the cost of locks are not modelled. The
  classes of `ThreadPool`, `TaskRuntime` and `QQBotChannel` hold the locked sections; what happens between them is the
  step machine.
- One method, `TaskDecomposer.Kahn`, stands for the loop that the source writes twice; the moved-from task vector is not
  modelled beyond each index being read once.
- The three entry points share one turn loop, which the source writes three times; their cancel checks, history windows,
  log texts and fallbacks differ as in the source.
- Serve: asks that no two session keys differ only behind a NUL, unless no call id holds one. Such keys share their rows
  but not their cached session, so one of them can be loaded from a log that the other saved, which
  `TurnLog.TornLogBreaksPrompt` shows to break the prompt.
- AddJob: asks that no job in the store has the id, which the source does not look at: its ids are random, or fixed
  names whose jobs were removed just before.
- Perform: asks the same, and that the id of an `At` or `Every` job is not given again, since its history is kept by id.
- A turn reads the clock once for all its timestamps.
- The system prompt, the guardrail keywords, the texts of reminders and notices, media parts and token estimates are
  parameters or absent; phase observers and typing messages are absent. What `AppendMemoryEntry` writes for a block is a
  parameter; the memory file is the list of entries.
- The completion handler of subagents, which saves a session from another thread, is not part of this model.
- SQL statements succeed; a database that cannot be opened is not modelled. JSON text is its value.
- The timeout watchdog of a task, which clears a slot by agent name alone, is not modelled: with it the slots are not
  exact.
- Waiting tasks are a map that may change at any time; resuming them and observing replies is not modelled further.
- Tasks of the pool do not throw: the source lets an exception of a task end the process. That includes an exception in
  a catch block of `ExecuteClaimedTask`; those in its `try` block are modelled.
- Cron expressions are an arbitrary function of expression and time; times do not overflow 64 bits; the job file is the
  list of jobs; a job handler that edits the store while it runs is not modelled; a missing handler is one that does
  nothing.
- `ListJobs`, `GetStatus` and `GetNextWakeMs` of the scheduler only read.
- What a QQ bot client sends, the target caches and outbound messages are not modelled.
- Channels other than the QQ bot, providers, the relay transport, tools, configuration and the command line are not
  modelled.
