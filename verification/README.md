# An autonomous coding agent, verified

This project models the stateful core of an autonomous coding agent and proves what it keeps over whole runs.  One run
of the agent loads context files, executes the tools named in the request, makes a plan, and then goes through steps: a
coder call to a language model, the answer streamed as a message and as tokens, the tools the answer asks for, a test
run, and a reflection by a critic model.  Models are chosen by a strategy with a budget for expensive models and a list
of fallbacks.  Around the run stand a packer for context files, an outline of directory trees, a stack of patch backups,
a guard for paths, a check of tool calls, a ranked file search, and the validation of the configuration.

Everything outside is a parameter.  The language model, the tools, the test command, the clock and the cancellation of
the request are an `Oracle`, read at a tick that every reading advances; the laws hold for every oracle.  A `string`
stands for a sequence of bytes; white space and letter case are those of ASCII.

## How the project is laid out

Code that changes state is modelled as the program has it, by classes, loops and methods that update fields, and each
such method is proved equal to a function on values.  The laws are proved of the functions, and say what these come to
in terms of what goes in and out: the components of a path, the view of the file system, the log of provider calls, the
stream of events.

| file | contents |
|---|---|
| `Text.dfy`, `TextLaws.dfy`, `Sorting.dfy` | string helpers and what they come to; sorting by a strict order |
| `ModelRegistry.dfy`, `Strategy.dfy`, `FallbackWalk.dfy` | registry, selection under a budget, the walk over the fallbacks |
| `AgentState.dfy`, `Agent.dfy`, `Conversation.dfy`, `Interleaving.dfy`, `Overlaps.dfy` | sessions and the three agent calls: as values, as objects, in the log of provider calls, and as concurrent calls, with what overlapping calls lose |
| `RunMachine.dfy`, `AgentRunner.dfy` | one run: as a function, and as the imperative run that refines it |
| `RunGrammar.dfy`, `RunStream.dfy`, `RunModels.dfy`, `RunAccounts.dfy`, `RunPrompts.dfy`, `RunCritic.dfy`, `RunStory.dfy`, `RunVerdict.dfy`, `RunHang.dfy` | the laws of runs: grammar of the stream, models of the roles, accounts of models and calls, what the models are sent, what the critic is shown, observations and histories, reason of the end, termination |
| `ContextPacker.dfy`, `Outline.dfy`, `SemanticSearch.dfy` | context files, tree outline, file search |
| `PatchBackups.dfy`, `PathGuard.dfy`, `PathDepth.dfy`, `ToolGate.dfy` | patch backups; path guard, and what it accepts told by depth; check and dispatch of tool calls |
| `ConfigCheck.dfy` | validation of a configuration and the registry built from it |

## What turned out

The model follows the code.  These are the places where the code differs from its documentation, or from what one would
expect of it, each with the exact condition where there is one.

* **The walk over the fallbacks can go on for ever.**  `docs/strategy.md:9` says that fallbacks are walked sequentially.
  The walk asks for the first fallback that differs from the one just seen, so it looks at two ids at most and then
  alternates between them.  It ends exactly when all fallbacks that are not blank are equal or one of the two ids is
  accepted (`WalkEndsIff`).  Whether this can happen is a matter of the strategy alone: every run returns if and only if
  the two ids are resolved to two models that stay apart, with budget left and with the budget spent
  (`AllRunsReturnIff`); under any other strategy some run never returns and never sends a terminal event
  (`LoopingStrategyHangs`).  With every fallback registered it takes a budget and no cheap fallback among the first two
  but the one that expensive choices give way to (`NeverLoopsIff`).
* **The budget for expensive models is a limit under a condition only.**  It is one on all sequences of selections
  exactly when the first fallback that resolves, or else the strategy default, is cheap, or no request prefers an
  expensive model (`BudgetIsLimitIff`).  The selection takes the first fallback that resolves, not the first cheap one.
* **A blank plan costs uncounted calls.**  A coder call on a session without a plan asks for a plan first, with the
  coder's model and without a selection of its own (`PlansFirstIff`), so a run can make more expensive calls than the
  counter and the budget say (`BlankPlanExceedsCounter`).  In a session that has a plan when the steps begin the counter
  covers every expensive call (`PlannedRunIsPaidFor`).
* **A plan is not kept under concurrency.**  Two calls that both find a session without a plan both store one, and the
  plan already returned to one caller is replaced; this happens exactly when another call has stored a plan that is not
  blank since the storing call looked (`PlanIsReplacedIff`, `PlanIsLost`).  In the same way the stored reflection and
  the last reflection of the history can come apart, exactly when the last reflection stored after that one was is a
  different one (`ReflectionStaysIff`, `ReflectionIsLost`).
* **The context budget is exceeded by up to twelve bytes**, the length of the truncation marker, although
  `docs/context_handling.md:14` calls it a cap on the total (`PackedWithinBudget`, `OverBudgetIff`, `ExcessIsReached`).
* **The outline shows more entries than its cap** exactly when an entry that follows in the listing lies less deep than
  the last one below the cap: one more entry for each directory on the way up that has one left
  (`OutlineIsCappedListing`, `OutlineRefinesListing`, `BoundIsReached`).
* **The reported number of test attempts is one too high when every attempt fails** (`TestsAreCounted`).
* **A dry run is never a default.**  `docs/tools.md` says that git apply defaults to a dry run when writes are disabled;
  the check in front of the tool rejects such a call instead, so the default is never reached (`DryRunIsNeverADefault`).
  A backup restore that the check lets through is refused by the tool (`LetThroughIsPermitted`).
* **Arguments are checked and then dropped.**  A write that asks not to overwrite overwrites (`OverwriteIsIgnored`), and a
  search of files needs a root that no check asks for (`SearchNeedsRoot`); `CarriesIff` lists what is dropped exactly.
* **A patch that git refuses becomes the latest backup** (`FailedApplyIsLatest`), restoring never pops one
  (`LatestStaysLatest`), and two applies on one clock reading share a backup (`SameClockOverwritesIff`).
* **With the root directory as base, the path guard rejects every path below it** (`UnderRootIff`).  With any other base
  a path that never climbs above its start is accepted, and one that ends above its start is refused
  (`StayingBelowIsAccepted`, `EndingAboveIsRefused`), unless it climbs past the root, which is its own parent, and comes
  back down to the base (`PastTheRootIsAccepted`); `AcceptedIff` is exact.
* **With several models marked default, which one is the default depends on the order of a map**
  (`DefaultIndependentIff`).

## Model

| member | source | states |
|---|---|---|
| `ModelRegistry.Catalog.Resolve` | internal/llm/registry.go:59-75 | an id, or the default for the empty id, resolves exactly when its route and the route's provider are registered, and the route found carries the id |
| `ModelRegistry.Registry.RegisterModel` | internal/llm/registry.go:50-56 | the registry afterwards is the old one with the route stored under its own name; routes keep carrying their ids |
| `ModelRegistry.Registry.MarkExpensive` | internal/llm/registry.go:23-28 | sets the flag of one id and changes nothing else |
| `Strategy.FirstResolvable` | internal/agent/strategy.go:30-44 | finds a resolvable id of a list exactly when there is one, and then the first |
| `Strategy.ResolveModel` | internal/agent/strategy.go:22-45 | the loop over the candidates yields what the selection without a budget yields |
| `Strategy.PickWithBudget` | internal/agent/strategy.go:47-81 | the imperative selection, with its loop over the fallbacks, computes the budgeted choice |
| `Strategy.FirstFallback` | internal/agent/strategy.go:58-68 | the scan over the fallbacks stops at the first that resolves |
| `Strategy.UnbudgetedIsFirstCandidate` | internal/agent/strategy.go:22-45 | selection fails exactly when no candidate resolves, and otherwise gives the route of the first candidate that does: highest-priority id, fallbacks in order, registry default |
| `Strategy.RoleGetsItsModel` | internal/agent/strategy.go:22-45 | the model of a role case by case: the request's id, else the override under the role's lower-cased name, else the planner's, critic's or coder's model, else the default; if that id is not registered, the first fallback that resolves, then the registry's default |
| `RunModels.RolesGetTheirModels` | internal/rpc/agent/runner.go:76-217 | with budget left, planner, coder and critic get the model wanted for them, recorded under the role's name: the request's planner or critic model before its general one, then the strategy's override and model for the role |
| `Strategy.SpentBudgetStillExpensiveIff` | internal/agent/strategy.go:53-78 | with the budget spent an expensive model is still chosen exactly when the role prefers one and there is no cheap escape |
| `Strategy.EscapeKeepsBudget` | internal/agent/strategy.go:47-81 | with a cheap escape, or if nobody prefers an expensive model, no sequence of selections takes the counter over the budget |
| `Strategy.RepeatedAskSpends` | internal/agent/strategy.go:47-81 | without a cheap escape every repetition of a request that prefers an expensive model is counted, however far the budget is exceeded |
| `Strategy.BudgetIsLimitIff` | internal/agent/strategy.go:47-81 | the budget bounds every sequence of selections if and only if there is a cheap escape or no request prefers an expensive model |
| `FallbackWalk.SelectModel` | internal/rpc/agent/runner.go:450-477 | model, recorded use and counter of a selection; a failed selection keeps the requested id and is not counted |
| `FallbackWalk.NextFallback` | internal/agent/strategy.go:83-91 | a fallback that is neither blank nor the current id, or the empty id exactly when there is none |
| `FallbackWalk.NextFallbackIsFirst` | internal/agent/strategy.go:83-91 | it is the one at the first place of the list that holds neither a blank id nor the current one |
| `FallbackWalk.PickFallbackModel` | internal/rpc/agent/runner.go:479-515 | the loop, cut off after any number of iterations, is where the walk on values is after as many, and the counter is charged only for an accepted expensive model |
| `FallbackWalk.WalkEndsIff` | internal/rpc/agent/runner.go:488-514 | the walk ends if and only if all fallbacks that are not blank are equal or a probed id is accepted; it evaluates at most two ids, ends within three iterations if it ends, and ends as the verdict says |
| `FallbackWalk.WalkAgreesWithPlainWalk` | internal/rpc/agent/runner.go:488-514 | a model the walk returns is the one a plain pass over the list without the failed model returns, and a walk that ends with nothing means that the plain pass finds nothing |
| `FallbackWalk.AskedForIsChosen` | internal/agent/strategy.go:22-56 | a registered model asked for by id is chosen while there is budget |
| `FallbackWalk.FirstProbeAccepted` | internal/rpc/agent/runner.go:488-513 | with every fallback registered and budget left, the first probe is accepted |
| `FallbackWalk.SpentBudgetCanHang` | internal/rpc/agent/runner.go:488-504 | a registry, two registered fallbacks and a spent budget for which the walk never ends |
| `AgentState.EnsureSession` | internal/agent/agent.go:250-264 | the session of an id exists afterwards, new ones are empty, others are untouched |
| `AgentState.RunContinues` | internal/agent/agent.go:42-103 | after a coder call every history is the old one and what the new provider calls on its session added, and a stored plan stays |
| `AgentState.ReflectContinues` | internal/agent/agent.go:147-183 | the same for a reflection |
| `AgentState.PlanContinues` | internal/agent/agent.go:106-144 | the same for a planning call |
| `AgentState.PlanningLeavesHistories` | internal/agent/agent.go:106-144 | planning changes no history |
| `AgentState.FailedCallsAddNothing` | internal/agent/agent.go:90-95 | a coder call or reflection that fails leaves every history as it was |
| `Agent.Agent.EnsureSession` | internal/agent/agent.go:250-264 | on objects: the record of an id is created once and never replaced, and the state is that of the call on values |
| `Agent.Agent.LastAssistantContent` | internal/agent/agent.go:273-283 | the backward scan returns the content of the last assistant message, or the empty string |
| `Agent.Agent.Plan` | internal/agent/agent.go:106-144 | on objects: state, provider calls and result are those of the planning call on values |
| `Agent.Agent.Run` | internal/agent/agent.go:42-103 | on objects: state, provider calls and result are those of the coder call on values |
| `Agent.Agent.Reflect` | internal/agent/agent.go:147-183 | on objects: state, provider calls and result are those of the reflection on values |
| `Conversation.MessagesConverse` | internal/agent/agent.go:63-80 | a coder call sends the system's message, the stored plan and reflection if there are any, the whole history, and the user's message, in this order and nothing else |
| `Conversation.RunTold` | internal/agent/agent.go:42-103 | after a coder call the sessions are what the log of provider calls makes of those before, and every prompt in the log fits its session as it was then |
| `Conversation.ReflectTold` | internal/agent/agent.go:147-183 | the same for a reflection, whose prompt has the stored plan |
| `Conversation.UserPromptGrows` | internal/agent/prompt.go:31-48 | the user's message is the task and then, in order, every context file's path and content |
| `Conversation.LastAssistantIs` | internal/agent/agent.go:273-283 | the last message of the assistant is found behind any others; without one the text is empty |
| `RunPrompts.PromptsAreTold` | internal/rpc/agent/runner.go:33-309 | over every run: each coder call is sent the plan, the reflection and the whole history that the calls before it in the log have left in its session; each reflection has the stored plan; a plan is asked for only when none is stored; each reply is the model's to that prompt |
| `RunPrompts.StoredPlanIsAnnounced` | internal/rpc/agent/runner.go:75-108 | the plan in the stream is the one the session has; a blank one is not announced |
| `Interleaving.MovedIsSound` | internal/agent/agent.go:250-321 | one move of one concurrent call, whichever, keeps the invariant: one record per id, sessions that are what the writes made them, calls on their own sessions |
| `Interleaving.HistoriesAreWholeBlocks` | internal/agent/agent.go:266-321 | for every schedule of concurrent calls, a history is a concatenation of whole pairs and single reflections, each written by a call on that session; a call writes one pair if it answered, one reflection if it reflected, nothing if it failed or only planned |
| `Interleaving.HistoriesOnlyGrow` | internal/agent/agent.go:250-321 | for every continuation of every schedule, an id keeps its session and its history is only added to |
| `Overlaps.PlanIsReplacedIff` | internal/agent/agent.go:114-143 | storing a plan replaces one that is not blank if and only if the last plan stored by another call since this one looked is not blank |
| `Overlaps.AsksAndWaits` | internal/agent/agent.go:106-182 | a planning or reflecting call in a session without a plan has asked, and waits to store the answer, after three moves |
| `Overlaps.PlanIsLost` | internal/agent/agent.go:114-143 | a schedule from the empty agent after which a plan that is not blank, stored and returned by one call, is replaced by a different one; it exists whenever the provider gives two planning calls different answers |
| `Overlaps.OverlapReplacesPlan` | internal/agent/agent.go:141-143 | of two planning calls of any scene that have both asked, the plan the first stores and returns is replaced by the second's |
| `Overlaps.ReflectionStaysIff` | internal/agent/agent.go:180-182 | for every schedule: the call that appended the last reflection of a history stored it before; it is still the stored one if and only if no reflection of the session has been stored since then, or the last one stored has the same text |
| `Overlaps.ReflectionIsLost` | internal/agent/agent.go:180-182 | a schedule from the empty agent after which the second of two reflections is the stored one and the first is the end of the history |
| `Interleaving.AloneIsAtomic` | internal/agent/agent.go:42-183 | a call whose moves are not interrupted does to the state what the call on values does, and returns the same |
| `RunMachine.AttemptsReportLastExecution` | internal/rpc/agent/runner.go:551-576 | every execution but the last failed, by its error or its exit code, and the last one's output, with its errors on a line of their own, exit code and error are reported |
| `RunMachine.TestsAreCounted` | internal/rpc/agent/runner.go:533-577 | between 1 and retries + 1 executions; the reported number is exact if one passed and one too high if all failed |
| `RunMachine.ToolsAreExecuted` | internal/rpc/agent/runner.go:57-183 | the tools are executed in order up to the first that fails or finds the request cancelled; each success is observed and streamed with its own output; a failure is streamed and ends the run |
| `RunGrammar.OneTerminalEvent` | internal/rpc/agent/runner.go:44-306 | a stream in the grammar has a terminal event (done, error, or failed tool) exactly as its last event, when it is closed |
| `RunGrammar.StepsInRange` | internal/rpc/agent/runner.go:110-155 | step numbers of events lie between 1 and the maximum |
| `RunGrammar.TestOnlyInLastStep` | internal/rpc/agent/runner.go:185-292 | after a test event only events of the same step or an error follow, and no second test, tool or token |
| `RunGrammar.HaltNoticeInContext` | internal/rpc/agent/runner.go:262-288 | a message that opens no step follows a reflection of its step, and only the done event with the blocked reason follows it |
| `RunGrammar.TokenNumbersIncrease` | internal/rpc/agent/runner.go:158-167 | token numbers strictly increase over the run if no message has more than 1000 words |
| `RunGrammar.TokenNumberDecodesIff` | internal/rpc/agent/runner.go:158-165 | a token number gives back step and index if and only if the index is below 1000 |
| `RunStream.RunInGrammar` | internal/rpc/agent/runner.go:57-306 | for every configuration, state and oracle the stream of a run is in the grammar, and closed exactly when the run has returned |
| `RunHang.EndlessIff` | internal/rpc/agent/runner.go:488-514 | after a given model has failed, the walk is endless if and only if there are two different fallbacks and each of the first two is the failed model, or is resolved by the strategy to it, or to none |
| `RunHang.AllWalksEndIff` | internal/rpc/agent/runner.go:488-514 | no walk over a strategy is endless, whatever the role, the failed model and the counter, if and only if all fallbacks that are not blank are equal, or the first two different ones are resolved to two different models and neither to the other, with budget left and with the budget spent |
| `RunHang.AllRunsReturnIff` | internal/rpc/agent/runner.go:33-309 | for a registry as registration builds it: every run over a strategy returns, for every configuration, outside world and state of the agent, if and only if the strategy meets that condition |
| `RunHang.NeverLoopsIff` | internal/rpc/agent/runner.go:488-504 | with every fallback registered the condition is: one fallback id, or no budget, or one of the first two different fallbacks is cheap and not the model that expensive choices give way to |
| `RunHang.RunReturns` | internal/rpc/agent/runner.go:33-309 | a run with no endless walk returns and has exactly one terminal event, its last |
| `RunHang.LoopingStrategyHangs` | internal/rpc/agent/runner.go:111-148 | under every strategy that does not meet the condition there is a run that never returns and never sends a terminal event |
| `RunHang.RunCanHang` | internal/rpc/agent/runner.go:111-148 | such a run for a budget of one and two registered fallbacks, a cheap and an expensive one |
| `RunAccounts.SelectionIsAccounted` | internal/rpc/agent/runner.go:450-477 | a selected model is registered, counted if expensive and recorded, or the agent cannot resolve it |
| `RunAccounts.RunBalances` | internal/rpc/agent/runner.go:33-309 | over every run the counter is the number of accepted expensive selections, stays within a budget that has a cheap escape, and covers every expensive provider call other than planning calls inside coder calls; every history is continued by what its calls added |
| `RunAccounts.PlannedRunIsPaidFor` | internal/rpc/agent/runner.go:33-309 | in a named session that has its plan when the steps begin, the counter covers every expensive provider call of the run without exception |
| `RunAccounts.PlannedRunMakesNoInnerCalls` | internal/agent/agent.go:52-56 | in a named session that has its plan when the steps begin, no step makes a planning call |
| `RunAccounts.PlansFirstIff` | internal/agent/agent.go:42-56 | a coder call asks for a plan, before its answer and with its own model, if and only if planning is on, the prompt is not blank, the model is registered and no plan is stored |
| `RunAccounts.BlankPlanExceedsCounter` | internal/agent/agent.go:52-56 | a run with a budget of one, a cheap escape and the counter at one that makes two expensive provider calls |
| `RunStory.ObservationsAreConserved` | internal/rpc/agent/runner.go:57-226 | the observations handed to the steps' reflections are, step by step, the successful tool executions in the stream, those before the first step with it; all of them when the run is done |
| `RunCritic.CriticSeesTheStep` | internal/rpc/agent/runner.go:185-261 | every answered call of the critic in the log, in order: it is shown the task, the coder's answer of its step, exactly the successful tool executions of the step, the report of the step's tests, which exists if and only if tests are on and the answer ends the run, and the difference to the text before; its trimmed answer is the step's reflection in the stream |
| `RunCritic.MessagesAreAnswers` | internal/rpc/agent/runner.go:150-156 | the messages that open the steps are the answered coder calls in the log, in order |
| `RunStory.ReflectionsAreChained` | internal/agent/agent.go:273-321 | from the second step on, the previous assistant text is the reflection of the step before with its prefix; in the first it is the last of the history at the start |
| `RunStory.HistoryGrowth` | internal/rpc/agent/runner.go:110-294 | the session's history grows by two for each step opened and by one for each reflection made |
| `RunStory.MetricMatchesStream` | internal/rpc/agent/runner.go:269-306 | a done run records one metric, with the reason of the done event and the number of token events; other runs record none |
| `RunStory.CancelledStepNeverBegins` | internal/rpc/agent/runner.go:111-115 | when a step is due no event of it is in the stream; if the request is cancelled by then the rest of the stream is the one error that says so, and if not the step begins |
| `RunVerdict.RunEndsForAReason` | internal/rpc/agent/runner.go:185-306 | only the last reflection of a run can halt it, and then the run is done as blocked; otherwise a done run gives the finish reason of the last coder answer if that answer was done, and the maximum of steps, at the last step, if not |
| `RunVerdict.StepDecides` | internal/rpc/agent/runner.go:111-294 | a step after which the run goes on had no halting reflection and an answer that was not done |
| `RunVerdict.HaltsIff` | internal/rpc/agent/runner.go:252-267 | a reflection halts the run if and only if it is not blank, asks to block, and the policy is neither of the two that only warn or never block |
| `AgentRunner.TaskRun.RoleCall` | internal/rpc/agent/runner.go:120-148 | the imperative call with its retry on a fallback does what the call on values does |
| `AgentRunner.TaskRun.WalkFallbacks` | internal/rpc/agent/runner.go:479-515 | three iterations of the loop decide what the walk comes to, endless ones included |
| `AgentRunner.TaskRun.ExecuteTools` | internal/rpc/agent/runner.go:169-183 | the loop over tool calls streams and observes what the function on values does |
| `AgentRunner.TaskRun.StreamTokens` | internal/rpc/agent/runner.go:158-167 | the loop over words, cancellation included, streams what the function on values does |
| `AgentRunner.TaskRun.RunTests` | internal/rpc/agent/runner.go:533-577 | the retry loop reports what the function on values reports |
| `AgentRunner.TaskRun.Step` | internal/rpc/agent/runner.go:111-294 | one imperative step changes the run as the step on values does |
| `AgentRunner.TaskRun.Execute` | internal/rpc/agent/runner.go:57-306 | the imperative run, with its counters and early returns, ends in the run on values |
| `AgentRunner.Runner.RunTask` | internal/rpc/agent/runner.go:33-309 | without an agent, or when context cannot be loaded, the stream is one error; otherwise it is that of the run on values with the packed context |
| `ContextPacker.Accumulator.AppendWithBudget` | internal/rpc/agent/runner.go:651-671 | for every cap on a file: adds one file cut to the room left and says whether the budget is spent; adds nothing if it was |
| `ContextPacker.BuildContextFiles` | internal/rpc/agent/runner.go:597-649 | the loop yields the packing on values, or the first error |
| `ContextPacker.DedupKeepsEachOnce` | internal/rpc/agent/runner.go:608-612 | the candidates packed are exactly the ones given, each once |
| `ContextPacker.PackedInOrder` | internal/rpc/agent/runner.go:608-648 | told from the file system: the packed files correspond in order to a prefix of the deduplicated candidates, each a file's text under its path or a directory's outline under its path without the last slash and with a note, whole or cut with the marker at what is left of the budget and 32768 bytes; a prefix is left out only when the budget is spent; a failure is a candidate's, with its error |
| `ContextPacker.PackedWithinBudget` | internal/rpc/agent/runner.go:597-671 | the total is the sum of the lengths; every proper prefix lies below the budget, every file within its cap and the marker, the whole within the budget and the marker |
| `ContextPacker.OverBudgetIff` | internal/rpc/agent/runner.go:608-671 | told from the file system and the candidates: packing fails if and only if some path looked at is unavailable or its outline or content is an error, a path being looked at while the files before it, each under its cap, take less than the budget; and the total exceeds the budget if and only if some path looked at is longer than its limit and the limit with the marker is more than what is left |
| `ContextPacker.ExcessIsReached` | internal/rpc/agent/runner.go:663-665 | one file longer than the budget exceeds it by twelve bytes |
| `Outline.Outliner.WalkInto` | internal/tools/filesystem.go:196-239 | the recursive closure with its shared lines and counter does what the walk on values does |
| `Outline.DescribeStructure` | internal/tools/filesystem.go:172-245 | the text is the title and the lines of the walk; not readable, missing or not a directory is an error |
| `Outline.OutlineIsCappedListing` | internal/tools/filesystem.go:196-244 | for every tree and all limits the lines of the outline are exactly the plain sorted listing up to the cap, a truncation, and then every later entry that lies less deep than all from the last one below the cap on, each with a truncation |
| `Outline.OutlineRefinesListing` | internal/tools/filesystem.go:196-244 | so the outline begins with the listing up to the cap, shows a truncation exactly when the listing has at least cap entries, exceeds the cap exactly when a later entry lies less deep than the last one below the cap, and has at most cap + min(cap, depth) - 1 entries and min(cap, depth) truncations |
| `Outline.BoundIsReached` | internal/tools/filesystem.go:218-233 | for all positive limits there is a tree that reaches both bounds |
| `Outline.OutlineIgnoresReadOrder` | internal/tools/filesystem.go:203-205 | the outline does not depend on the order in which the entries of any directory of the tree are read |
| `Outline.ListingShowsEntries` | internal/tools/filesystem.go:203-217 | at its own depth a listing shows exactly the entries that are not among the seven names left out, whatever the case, in the order of their names, directories marked |
| `Outline.LevelsShift` | internal/tools/filesystem.go:212-221 | a line one level further down has two more spaces in front |
| `PatchBackups.GitTool.ApplyPatch` | internal/tools/git.go:32-51 | a forbidden apply changes nothing, a dry run only asks git, a real apply does what the apply on values does |
| `PatchBackups.GitTool.MakeBackup` | internal/tools/git.go:71-104 | writes the patch, pushes an entry linked to the latest and saves the stack, as on values, failing at each of the places where it can |
| `PatchBackups.GitTool.FindBackup` | internal/tools/git.go:132-162 | the loop over the entries finds what the lookup on values finds |
| `PatchBackups.GitTool.RestoreBackup` | internal/tools/git.go:53-69 | a forbidden restore changes nothing; otherwise as the restore on values |
| `PatchBackups.GitTool.LoadOrInitStack` | internal/tools/git.go:191-202 | the cached stack, or the one in the file, which is cached then |
| `PatchBackups.AppliesKeepChain` | internal/tools/git.go:71-104 | after any sequence of real applies on an increasing clock, failed writes, failed saves and refused patches included, the stack is a linear parent chain of the recorded applies, each with its patch in its file |
| `PatchBackups.LookupIsExact` | internal/tools/git.go:132-162 | every recorded backup is found by id and by file name with exactly its own text; the empty name finds the latest |
| `PatchBackups.SavedStackReloads` | internal/tools/patch_stack.go:29-53 | a tool that starts afresh after a saved apply has the same stack and reads the same backups |
| `PatchBackups.RestoringAllUndoesAll` | internal/tools/git.go:32-69 | if every apply succeeded and reverse apply undoes apply, restoring the ids backwards brings the tree back |
| `PatchBackups.LatestStaysLatest` | internal/tools/git.go:53-69 | however often the latest backup is restored, the next restore takes the same one |
| `PatchBackups.FailedApplyIsLatest` | internal/tools/git.go:39-50 | a refused patch, or one whose stack is not saved, leaves the tree alone and becomes the latest backup |
| `PatchBackups.SameClockOverwritesIff` | internal/tools/git.go:91-97 | on one clock reading the first backup keeps its text if and only if both patches are the same |
| `PatchBackups.IdsApart` | internal/tools/git.go:91-92 | different clock readings give different ids and file names, and no id is a file name |
| `PathGuard.CleanIdempotent` | internal/tools/path.go:36 | cleaning a path twice is cleaning it once |
| `PathGuard.PrefixTestIff` | internal/tools/path.go:43 | the test on strings is the prefix relation on components, for every base but the root |
| `PathGuard.ResolveIff` | internal/tools/path.go:32-47 | a path is accepted if and only if it is not empty, relative, and base and path together normalise to components that begin with the base; the result is their path |
| `PathDepth.JoinSplit` | internal/tools/path.go:36 | splitting a path at its separators loses nothing |
| `PathDepth.UpTakesName` | internal/tools/path.go:36 | `..` takes away the name in front of it, wherever the two stand |
| `PathDepth.DotsAreSkipped` | internal/tools/path.go:36 | an empty component or `.` counts for nothing, wherever it stands |
| `PathDepth.NormalizeByDepth` | internal/tools/path.go:36-41 | an absolute path of names with components after it loses as many names as they climb above their start, and keeps behind them the names no `..` has taken away |
| `PathDepth.RelativeByDepth` | internal/tools/path.go:36 | a relative path comes to as many `..` as it climbs above its start and the names that are left |
| `PathDepth.AcceptedIff` | internal/tools/path.go:32-47 | a path is accepted if and only if it is not empty, relative, and its names that are left begin with the names of the base it takes away; the result is the base without these and the names that are left |
| `PathDepth.StayingBelowIsAccepted` | internal/tools/path.go:32-47 | a relative path that never climbs above its start is accepted, as the base with its names that are left |
| `PathDepth.EndingAboveIsRefused` | internal/tools/path.go:43-45 | a path that ends above its start, and does not climb past the root, is refused |
| `PathDepth.SiblingsAreRefused` | internal/tools/path.go:43-45 | the parent of the base is refused, and of the parent's other entries only the base itself is accepted |
| `PathDepth.PastTheRootIsAccepted` | internal/tools/path.go:40-45 | for every base a path that ends above its start and is accepted all the same |
| `PathDepth.UnderRootIff` | internal/tools/path.go:42-45 | under the root exactly the relative paths of which no name is left are accepted |
| `SemanticSearch.OverlapScore` | internal/semantic/engine.go:95-112 | the two loops count the query tokens that occur in the document |
| `SemanticSearch.Search` | internal/semantic/engine.go:43-93 | fails exactly on a blank query, one without tokens, or a failing walk; otherwise the sorted, cut hits of the files within the cap |
| `SemanticSearch.TopIsBest` | internal/semantic/engine.go:83-92 | the hits kept are as many as there are up to the limit, by falling overlap and for equal overlaps by path, and every other hit comes after every one of them in that order |
| `SemanticSearch.SearchIgnoresWalkOrder` | internal/semantic/engine.go:59-92 | within the file cap the result is the same for every walk order |
| `SemanticSearch.ScoresInRange` | internal/semantic/engine.go:95-112 | the overlap of a hit lies above zero and is at most the number of query tokens |
| `SemanticSearch.OverlapCounts` | internal/semantic/engine.go:95-112 | the overlap is the number of places of the query whose token occurs in the document |
| `SemanticSearch.TokensInOrder` | internal/semantic/engine.go:114-120 | the tokens of a text are its longest parts of letters, digits and underscores, in order and in lower case |
| `SemanticSearch.SummaryIsFirstLine` | internal/semantic/engine.go:122-138 | the snippet is the first line that is not blank, trimmed, or else the whole text, cut after 200 characters |
| `ConfigCheck.Validate` | internal/config/config.go:184-276 | accepts exactly the configurations without a problem, and otherwise reports a problem that holds while none of an earlier check does |
| `ConfigCheck.BuildRegistry` | internal/llm/configbuilder/configbuilder.go:13-41 | over maps in any order: builds the registry of some order of registration, and succeeds exactly when all provider types are known and the default resolves |
| `ConfigCheck.RegistryHoldsConfig` | internal/llm/configbuilder/configbuilder.go:13-51 | for every order the registry holds exactly the configured providers, each of the kind its type says, for the six known types, and exactly the configured models with their routes and flags |
| `ConfigCheck.DefaultByOrder` | internal/llm/registry.go:50-56 | the default is the last model marked default in the order of registration, if it has a name |
| `ConfigCheck.DefaultIndependentIff` | internal/llm/configbuilder/configbuilder.go:24-34 | the default is the same for every order if and only if one model only is marked and it has a name or is the only model; then it is that one |
| `ConfigCheck.ValidBuilds` | internal/llm/configbuilder/configbuilder.go:36-40 | a valid configuration with known provider types always has a default that resolves |
| `ConfigCheck.ResolvesConfigured` | internal/llm/registry.go:59-75 | the registry of a valid configuration resolves exactly the configured ids and the empty id |
| `ConfigCheck.ValidSelectionIsTotal` | internal/agent/strategy.go:22-45 | with a valid configuration every role and requested id gets a route: the preferred id if configured, else the first fallback, else the default; only an id the request brings can be unknown |
| `ConfigCheck.ValidFallbackIsPicked` | internal/rpc/agent/runner.go:479-515 | with a valid configuration, budget left and a fallback other than the failed model, the walk takes the first such fallback |
| `ToolGate.ValidateAgainstSchema` | internal/tools/validator.go:88-132 | complains exactly when a field does not fit, and then about the first |
| `ToolGate.ValidateCall` | internal/tools/validator.go:9-86 | lets through exactly the calls of enabled tools whose needed arguments are there and whose arguments have their types |
| `ToolGate.LetThroughIsPermitted` | internal/rpc/agent/runner.go:338-425 | no tool refuses a call that is let through for lack of permission, but for restoring a backup under dry runs only |
| `ToolGate.DryRunIsNeverADefault` | internal/rpc/agent/runner.go:382-393 | a patch is applied as a dry run exactly when the call says so; without the argument a call is rejected exactly under dry runs only |
| `ToolGate.PrepareCall` | internal/rpc/agent/runner.go:338-448 | a call is refused unless it is let through, and otherwise becomes the action that is executed |
| `ToolGate.ActionTellsTool` | internal/rpc/agent/runner.go:341-448 | each of the ten tool names becomes its own kind of action, and no other name does |
| `ToolGate.StringsInOrder` | internal/rpc/agent/runner.go:371-378 | of the arguments of a command the strings are executed, in order, wherever others stand between them |
| `ToolGate.LimitIsTruncated` | internal/rpc/agent/runner.go:425-436 | the limit of a search is its number with the fraction dropped |
| `ToolGate.CarriesIff` | internal/rpc/agent/runner.go:341-448 | a call that is let through is executed with its arguments as given if and only if it is no file write that says whether to overwrite, no file search with a root that is no string, no command with an argument that is no string, and no search with a fraction in its limit |
| `ToolGate.ActionTellsArguments` | internal/tools/schema.go:20-85 | two calls that drop nothing and execute the same action agree on every argument of the schema that both give |
| `ToolGate.OverwriteIsIgnored` | internal/rpc/agent/runner.go:345-351 | a write that must not overwrite is let through and executed as one that may |
| `ToolGate.SearchNeedsRoot` | internal/rpc/agent/runner.go:353-358 | a file search without a root is let through and then refused by the path guard |

## Left out

- HTTP, RPC and NDJSON handlers, the command line, the daemon: transport.
- Providers of language models, process execution, the git binary and file contents: they are the oracle, `Git` and `FileView` parameters.
- Wording of the planning and reflection prompts, temperature and token limits of a request, session and correlation ids on events: constant or one-branch code.  The chat prompt of a coder call is modelled message by message.
- Extraction of tool calls from an answer, parsing of the critique and of test output: parameters of the oracle, since they are JSON and regular expressions.
- Failure and usage metrics by model, and logging: no property is stated about them; the metric of a run is modelled.
- Per-attempt timeouts of the test command: part of what the oracle answers.
- Discovery of context paths when a request names none: the candidates are a parameter.
- Names of session ids on a concurrent empty id: an empty id makes a new session on every call, so the laws on growth and chaining ask for a session id, which the handlers supply.
- Unsynchronised reads of a history during an append: in `Interleaving` every access to a field is one move; concurrent runs are covered as the calls they make, in any order.
- Characters beyond ASCII in letter case and white space, symbolic links, separators of other systems, files that change during a walk.
- Floating-point scores: the common denominator is dropped and overlaps are compared.
- A tool registry without a filesystem: the daemon always sets one.
- Listing of directories, file search, writing of files, backup listing and preview: easy members; preview reads a backup as restore does.
- FallbackWalk.PickFallbackModel: takes a number of iterations, since the loop of the runner need not end; `WalkEndsIff` says when it does, and three iterations decide it.
- SemanticSearch.Search: the defaults of the engine's caps are not modelled, any caps are allowed; the walk that meets the files, and files it cannot read, are part of the `walk` parameter.
- RunAccounts.RunBalances: the part on provider calls leaves out planning calls inside coder calls, which `PlannedRunIsPaidFor` and `PlansFirstIff` settle, and asks that strategy and agent share one registry, as the daemon wires them (`internal/daemon/server.go:42-58`), in which no model id is empty.
- RunModels.RolesGetTheirModels: asks for budget left and a registered id; `RoleGetsItsModel` and `PickWithBudget` tell the other cases.
- RunCritic.CriticSeesTheStep: the difference to the text before is told for a run with a named session, since an empty id makes a new session on every call; the handlers supply an id.
- RunPrompts.StoredPlanIsAnnounced: asks for a named session for the same reason.
- RunHang.AllRunsReturnIff: asks for a registry in which routes carry their ids, as registration leaves them, and no id is empty.
- RunGrammar.TokenNumbersIncrease: asks for messages of at most 1000 words; `TokenNumberDecodesIff` gives the exact bound for decoding.
- Outline.DescribeStructure: the lookup of the path under the guard is the `node` parameter.
