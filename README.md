# AppBuilder AI orchestration core in Dafny

This project models the backend core of the AppBuilder AI project orchestrator:

- **The dispatcher.** It loads a project's state document, and seeds ten tasks for ten fixed agents (project manager, architect, designers, developers, QA, security, devops, docs). It then activates each agent in turn. An activation picks the agent's first pending task, looks up the agent's configuration, asks a remote LLM service for the work, charges its cost against a ten-dollar ceiling and routes the output to a project artifact. When the stored project status is `tests_failed` or `vulnerabilities_found`, the dispatcher also runs a bounded self-correction round. No code in the program sets either status: the test and audit endpoints only file a report. So a round runs only on a state file whose status was written that way from outside, for example by hand; on any other status it does nothing (`CorrectionIdleUnlessTriggered`, `FreshProject`). It turns every unfixed QA or security report into a fix task for the `auto-fixer` and reruns `auto-fixer`, `backend-dev` and `lead-qa`. After the third round it escalates to a human.
- **The context manager.** It reads and writes each project's `state.json`. On top of that it offers five read-modify-write operations: add a task, update a task's status, add a report, count an iteration and add LLM cost.
- **The HTTP layer's own logic.** This covers:
  - the initial state document of a new project;
  - the severity rules and report shape of the test and security-audit endpoints;
  - the feedback endpoint, which files a report and then runs a correction round;
  - the status endpoint's task and report filters.

The model is split into these files:

- `Types.dfy`: the state document as a value. Each optional JSON key is an `Option`. Keys the program does not know are kept in an `other` map. A stored file is either a parsed document or an unreadable one.
- `ContextManager.dfy`: the state files as a map from project id to file. The pure functions `ReadState`, `Stored`, `GetTasks` and the per-operation document updates come first. The class `ContextStore` has one method per context-manager operation and is proved against those functions.
- `DispatcherSpec.dfy`: the dispatcher as pure functions over a `World` (the state document plus the artifact files):
  - `AgentStep` is one `run_agent`;
  - `RunStages` is a sequence of activations;
  - `Workflow` is `run_workflow`;
  - `Correction` is `handle_correction_cycle`.

  The remote service is an oracle. It is a function from agent name to `Outcome` (a reply with output and an optional cost, or a failed call).
- `Dispatcher.dfy`: the class `Dispatcher`, written imperatively as the source is. Its fields are the state document and the artifacts. Its loops scan and mark tasks, run the pipeline and synthesise fix tasks. The methods that make up an activation, a workflow run and a correction round are each proved equal to their specification function (`AgentStep`, `RunStages`, `Workflow`, `Synthesize`, `Correction`), together with what the project's file holds afterwards. `CallLlm`, which has no specification function of its own, states its effect on the state and the file branch by branch.
- `DispatcherProofs.dfy`: what the dispatcher promises, proved about the specification functions.
- `Api.dfy`: the slice of `main.py` listed above.

## Model

| member | source | states |
|---|---|---|
| Types.NatToString | backend/praisonai_core/dispatcher.py:265 | the decimal rendering of the cycle number in a fix-task id is non-empty and made of digits only |
| Types.NatToStringValue | backend/praisonai_core/dispatcher.py:265 | the digits printed for a natural number spell that number, with no leading zero |
| Types.IntToStringValue | backend/praisonai_core/dispatcher.py:265 | an int prints as its digits, or as `-` followed by the digits of its magnitude when negative |
| ContextManager.ReadState | backend/praisonai_core/tools/context_manager.py:40-54 | reading succeeds unless the file exists and is not valid JSON; a successful read always has a `status` |
| ContextManager.Stored | backend/praisonai_core/tools/context_manager.py:57-67 | writing sets exactly the project's own file and leaves every other project's file as it was |
| ContextManager.ContextStore.constructor | backend/praisonai_core/tools/context_manager.py:28-37 | the store of project files under the projects directory starts with the given files |
| ContextManager.ContextStore.WriteState | backend/praisonai_core/tools/context_manager.py:57-67 | `write_state` replaces the project's file with the given document |
| ContextManager.ContextStore.AddTask | backend/praisonai_core/tools/context_manager.py:105-130 | fails without writing on an unreadable file; otherwise stores the read document with the expanded task appended |
| ContextManager.ContextStore.UpdateTaskStatus | backend/praisonai_core/tools/context_manager.py:132-143 | fails without writing on an unreadable file or when some task has no `id`; otherwise stores the document with every task of that id retagged |
| ContextManager.ContextStore.AddReport | backend/praisonai_core/tools/context_manager.py:145-153 | fails without writing on an unreadable file; otherwise stores the document with the report appended |
| ContextManager.ContextStore.IncrementIterationCount | backend/praisonai_core/tools/context_manager.py:155-162 | fails without writing on an unreadable file; otherwise stores the document with `iteration_count` one higher |
| ContextManager.ContextStore.AddLlmCost | backend/praisonai_core/tools/context_manager.py:164-172 | fails without writing on an unreadable file; otherwise stores the document with the cost added to `current_llm_cost` |
| ContextManager.ReadStateDefaults | backend/praisonai_core/tools/context_manager.py:44-54 | a missing file reads as `{status: init}`; a file without `status` reads with `status: init` and every other key kept |
| ContextManager.WriteReadRoundTrip | backend/tests/test_context_manager.py:36-42 | reading back a written document gives that document; other projects read as before |
| ContextManager.AddTaskAppends | backend/praisonai_core/tools/context_manager.py:105-130 | after `add_task` the task list is the old one plus the task; only `feature` and `bugfix` tasks gain the test-generator and security-audit subtasks, and those carry the task's id |
| ContextManager.StatusUpdateOnlyMatching | backend/praisonai_core/tools/context_manager.py:132-143 | `update_task_status` changes the status of the tasks with that id and of no other task, keeps the task count and every other key |
| ContextManager.ReportAppended | backend/praisonai_core/tools/context_manager.py:145-153 | `add_report` appends exactly the report after the existing ones and changes nothing else |
| ContextManager.GetTasksCases | backend/praisonai_core/tools/context_manager.py:96-103 | `get_tasks` gives `[]` without a file or without `tasks`, the stored list otherwise, and fails on an unreadable file |
| ContextManager.CostsAccumulate | backend/tests/test_context_manager.py:92-100 | adding 5.5 then 2.5 to a fresh project leaves `current_llm_cost` at 8.0 |
| ContextManager.IterationCounts | backend/praisonai_core/tools/context_manager.py:155-162 | the count goes up by one, starts at 1 on a document without it, and nothing else changes |
| DispatcherSpec.InitialTasks | backend/praisonai_core/dispatcher.py:85-105 | ten pending tasks, one per pipeline agent, in pipeline order |
| DispatcherSpec.FirstPending | backend/praisonai_core/dispatcher.py:236-242 | the index found is the first task that is pending for the agent; none is found exactly when no task is |
| DispatcherSpec.Route | backend/praisonai_core/dispatcher.py:185-208 | empty output writes nothing; otherwise only DESIGN.md, specification.md or the ADR log can change |
| DispatcherSpec.FixTasks | backend/praisonai_core/dispatcher.py:261-276 | no more fix tasks than reports, each a pending priority-1 task for `auto-fixer` with a description; the exact count and order are `FixTasksCount` and `FixTasksInOrder` |
| DispatcherSpec.AgentStep | backend/praisonai_core/dispatcher.py:108-146 | the definition of one `run_agent` activation on a world, with the remote's answer as a parameter; its properties are the `Step*` lemmas |
| DispatcherSpec.RunStages | backend/praisonai_core/dispatcher.py:58-70 | the definition of a run of `run_agent` calls in the given order, each asking the remote oracle for its agent |
| DispatcherSpec.Workflow | backend/praisonai_core/dispatcher.py:49-83 | the definition of `run_workflow`: seed the ten tasks, set `in_progress`, run the ten agents in pipeline order, set `completed` |
| DispatcherSpec.Synthesize | backend/praisonai_core/dispatcher.py:260-277 | the definition of the report loop of a correction round: fix tasks appended in report order, needing reports marked `fixed` |
| DispatcherSpec.Correction | backend/praisonai_core/dispatcher.py:251-281 | the definition of `handle_correction_cycle`: idle unless triggered, count the cycle, escalate past 3, else synthesize and rerun the three recovery agents |
| ContextManager.GetTasks | backend/praisonai_core/tools/context_manager.py:96-103 | the definition of `get_tasks`: the stored task list, `[]` when absent, a failure on an unreadable file; its cases are `GetTasksCases` |
| DispatcherSpec.Load | backend/praisonai_core/dispatcher.py:24-34 | the loaded document always has a status |
| Dispatcher.Dispatcher.constructor | backend/praisonai_core/dispatcher.py:15-20 | the dispatcher's state is what `load_state` gives for its project |
| Dispatcher.Dispatcher.SaveState | backend/praisonai_core/dispatcher.py:38-46 | the project's file now holds the dispatcher's state |
| Dispatcher.Dispatcher.GenerateInitialTasks | backend/praisonai_core/dispatcher.py:85-105 | the task list is replaced by the ten initial tasks, whatever it held before |
| Dispatcher.Dispatcher.NextTaskFor | backend/praisonai_core/dispatcher.py:236-242 | the scanning loop returns the first pending task of the agent |
| Dispatcher.Dispatcher.MarkAgentStatus | backend/praisonai_core/dispatcher.py:224-228 | every pending task of the agent gets the status; other tasks are untouched |
| Dispatcher.Dispatcher.MarkTask | backend/praisonai_core/dispatcher.py:230-248 | the selected task's status is set and nothing else changes |
| Dispatcher.Dispatcher.CallLlm | backend/praisonai_core/dispatcher.py:148-183 | at or over the $10 ceiling the call is refused as failed, status becomes `llm_cost_limit_exceeded` and nothing is charged; a failed call is failed and charges nothing; a reply is done and charges the reported cost (0.01 when none) to the state, and `add_llm_cost` stores the file's own document with that cost added; when that file cannot be read, `add_llm_cost` raises, the call answers failed and nothing is charged; a refusal saves the state; `skipped` is never returned |
| Dispatcher.Dispatcher.HandleAgentOutput | backend/praisonai_core/dispatcher.py:185-208 | the artifacts change as the routing table says and the state does not |
| Dispatcher.Dispatcher.RunAgent | backend/praisonai_core/dispatcher.py:108-146 | the imperative activation ends in the state and artifacts of `AgentStep`, and the saved file holds that state |
| Dispatcher.Dispatcher.RunAgents | backend/praisonai_core/dispatcher.py:58-70 | activating a list of agents one after another ends in `RunStages`'s state and artifacts, and the saved file holds that state; an empty list writes nothing |
| Dispatcher.Dispatcher.RunWorkflow | backend/praisonai_core/dispatcher.py:49-83 | the loop over the ten stages ends in `Workflow`'s state and artifacts, and the saved file holds that state |
| Dispatcher.FixReports | backend/praisonai_core/dispatcher.py:261-276 | the report loop's result is `Synthesize`: one fix task appended per unfixed QA or security report, in report order, and exactly those reports marked `fixed` |
| Dispatcher.Dispatcher.SynthesizeFixTasks | backend/praisonai_core/dispatcher.py:260-277 | the dispatcher's state becomes `Synthesize` of the old state; the artifacts are unchanged |
| Dispatcher.Dispatcher.HandleCorrectionCycle | backend/praisonai_core/dispatcher.py:251-281 | the round ends in `Correction`'s state and artifacts; an untriggered round writes nothing |
| DispatcherSpec.StepUnconfigured | backend/praisonai_core/dispatcher.py:118-128 | without a usable config the taken task (marked `in_progress`, agent recorded as `last_agent`) ends `failed` and the project status is kept |
| DispatcherSpec.StepRefused | backend/praisonai_core/dispatcher.py:137-143 | at the cost ceiling the taken task ends `failed` and the project becomes `failed` |
| DispatcherSpec.StepCallFailed | backend/praisonai_core/dispatcher.py:137-143 | a failed call leaves the taken task `failed` and the project `failed` |
| DispatcherSpec.StepReplied | backend/praisonai_core/dispatcher.py:137-140 | a reply leaves the taken task `done` and adds the reported cost to the document |
| DispatcherProofs.StepNormalForm | backend/praisonai_core/dispatcher.py:118-146 | every activation that finds a task is the taken document with one task status, the project status and the cost replaced |
| DispatcherProofs.NoPendingTaskNoEffect | backend/praisonai_core/dispatcher.py:111-116 | an agent without a pending task changes nothing and makes no call |
| DispatcherProofs.NoCallOutcomeIrrelevant | backend/praisonai_core/dispatcher.py:123-161 | when the agent has no usable config or the ceiling is reached, the remote answer does not matter |
| DispatcherProofs.StepTaskUpdate | backend/praisonai_core/dispatcher.py:118-146 | an activation changes only the agent's first pending task, to `done` after a successful call and to `failed` otherwise |
| DispatcherProofs.StepLeavesRest | backend/praisonai_core/dispatcher.py:118-146 | besides tasks, status, cost and `last_agent`, an activation changes no key of the document |
| DispatcherProofs.StepLastAgent | backend/praisonai_core/dispatcher.py:119 | an activation that found a task records the agent as `last_agent` |
| DispatcherProofs.StepStatus | backend/praisonai_core/dispatcher.py:137-143 | the project becomes `failed` exactly when a configured agent's call is refused or fails |
| DispatcherProofs.StepCost | backend/praisonai_core/dispatcher.py:169-177 | the cost grows by the reported cost exactly when the call is made and succeeds |
| DispatcherProofs.StepChangesOnlySelected | backend/praisonai_core/dispatcher.py:118-146 | the whole effect of an activation on the document, key by key |
| DispatcherProofs.MissingConfigFailsTaskOnly | backend/praisonai_core/dispatcher.py:123-128 | a missing config fails the task and leaves the project status and the cost alone |
| DispatcherProofs.CostCeilingRefuses | backend/praisonai_core/dispatcher.py:155-161 | at the ceiling the task fails, no cost is charged, and the project ends `failed` because `run_agent` overwrites `llm_cost_limit_exceeded` |
| DispatcherProofs.CostAccounting | backend/praisonai_core/dispatcher.py:169-183 | the cost after an activation is the old cost plus the reported cost (0.01 by default) or the old cost |
| DispatcherProofs.StepCostMonotone | backend/praisonai_core/dispatcher.py:174-176 | a non-negative reported cost never lowers the cost |
| DispatcherProofs.RouteTable | backend/praisonai_core/dispatcher.py:192-205 | `uiux` writes DESIGN.md, `project-manager` writes specification.md, `solution-architect` appends to the ADR log, each only with its tool; any other pair writes nothing |
| DispatcherProofs.CeilingScenario | backend/praisonai_core/dispatcher.py:155-176 | at cost 9.5 a call costing 1.0 still runs (10.5); the next activation is refused and charges nothing (both tasks carry a description, so the call is reached) |
| DispatcherProofs.StagesKeepOtherKeys | backend/praisonai_core/dispatcher.py:108-146 | a run of activations keeps every key but status, tasks, cost and `last_agent`, and keeps the task count |
| DispatcherProofs.StagesCostMonotone | backend/praisonai_core/dispatcher.py:174-176 | a run of activations never lowers the cost when reported costs are non-negative |
| DispatcherProofs.PipelineProgress | backend/praisonai_core/dispatcher.py:54-70 | after k stages the first k seeded tasks have left `pending` and the rest are still pending |
| DispatcherProofs.WorkflowRunsEveryStage | backend/praisonai_core/dispatcher.py:49-83 | after `run_workflow` none of the ten tasks is pending and the status is `completed` |
| DispatcherProofs.PipelineOutcomes | backend/praisonai_core/dispatcher.py:54-70 | under the ceiling, stage k's task ends `done` exactly when its call succeeds; the cost after k stages is at most the starting cost plus k times a common bound on the reported costs |
| DispatcherProofs.AllStagesSucceed | backend/praisonai_core/dispatcher.py:49-83 | every call succeeding under the ceiling leaves all ten tasks `done` and the project `completed` |
| DispatcherProofs.LeadQaFailureContinues | backend/praisonai_core/dispatcher.py:66-82 | a failed `lead-qa` call flags the project `failed`, the later three stages still run, and the run still ends `completed` |
| DispatcherProofs.FixTasksFromReports | backend/praisonai_core/dispatcher.py:261-276 | every fix task comes from a QA or security report not yet fixed, and every such report yields its fix task |
| DispatcherProofs.NeedIndices | backend/praisonai_core/dispatcher.py:262-263 | the positions of the reports that need a fix: in range, strictly increasing, each needing a fix, and every such position present |
| DispatcherProofs.FixTasksInOrder | backend/praisonai_core/dispatcher.py:261-276 | the k-th fix task is built from the k-th report that needs a fix, so there is exactly one fix task per such report, in report order |
| DispatcherProofs.FixTasksCount | backend/praisonai_core/dispatcher.py:261-276 | the number of fix tasks equals the number of reports that need a fix |
| DispatcherProofs.FixTaskShape | backend/praisonai_core/dispatcher.py:264-274 | a fix task is pending, priority 1, for `auto-fixer`, with id `fix-<related>-<cycle>` and the report's related task as dependency |
| DispatcherProofs.FeedbackNeverFixed | backend/praisonai_core/dispatcher.py:263 | a report that is neither QA nor security adds no fix task |
| DispatcherProofs.NothingToFix | backend/praisonai_core/dispatcher.py:262-263 | when no report needs a fix, no fix task is made |
| DispatcherProofs.SecondRoundAddsNothing | backend/praisonai_core/dispatcher.py:263-276 | once a round has marked its reports `fixed`, a second synthesis adds no task |
| DispatcherProofs.CorrectionIdleUnlessTriggered | backend/praisonai_core/dispatcher.py:253 | outside `tests_failed`/`vulnerabilities_found` a round does nothing, so escalated projects stay escalated |
| DispatcherProofs.CorrectionCountsAndEscalates | backend/praisonai_core/dispatcher.py:255-259 | a triggered round adds one to `correction_cycle`; past 3 it escalates to `human_intervention_required` without touching tasks or reports, and later rounds do nothing |
| DispatcherProofs.StagesOnlyStatus | backend/praisonai_core/dispatcher.py:108-146 | a run of activations changes tasks only in their status: none is added, removed, reordered or otherwise edited |
| DispatcherProofs.CorrectionAppendsFixes | backend/praisonai_core/dispatcher.py:260-281 | after a non-escalating round the task list is the old one followed by exactly the fix tasks, differing at most in status after the recovery agents run |
| DispatcherProofs.WorkflowTasksDescribed | backend/praisonai_core/dispatcher.py:85-105 | every task a stage of `run_workflow` can take has a `description`, so the payload built at dispatcher.py:163-167 never raises there |
| DispatcherProofs.CorrectionTasksDescribed | backend/praisonai_core/dispatcher.py:264-276 | fix tasks carry a description, so a round over described stored tasks leaves every task described |
| DispatcherProofs.CorrectionSynthesizes | backend/praisonai_core/dispatcher.py:260-281 | a non-escalating round adds as many tasks as there are fix tasks, marks the reports that needed fixing `fixed`, keeps the others, and leaves nothing to fix |
| DispatcherProofs.WorkflowCostMonotone | backend/praisonai_core/dispatcher.py:49-83 | a workflow run never lowers the cost when reported costs are non-negative |
| DispatcherProofs.CorrectionCostMonotone | backend/praisonai_core/dispatcher.py:251-281 | a correction round never lowers the cost when reported costs are non-negative |
| DispatcherProofs.LoadFallbacks | backend/praisonai_core/dispatcher.py:24-34 | no file gives `{status: init}`, an unreadable file gives `{status: init, tasks: [], blockers: []}`, a stored document with a status is loaded as is |
| Api.ContainsIsOccurs | backend/main.py:132 | the substring scan answers true exactly when the needle occurs at some position |
| Api.TestSeverity | backend/main.py:130-133 | the test severity is `high` or `low` |
| Api.AuditSeverity | backend/main.py:149-152 | the audit severity is `high` or `low` |
| Api.TestSeverityRule | backend/main.py:130-133 | `high` exactly when the output is non-empty and contains `failure`, `error` or `failed` |
| Api.AuditSeverityRule | backend/main.py:149-152 | `high` exactly when the output is non-empty and contains `high`, `error` or `warning` |
| Api.SeverityIsLexical | backend/main.py:130-152 | the rule is lexical: a passing RSpec summary `1 example, 0 failures` is `high`, and so is an audit with an empty warning list; missing or empty output is `low` for both rules |
| Api.TestReport | backend/main.py:134-140 | a `qa_functional` report with the severity rule's value, the output as content when it is non-empty and `No output` otherwise, and related task null |
| Api.AuditReport | backend/main.py:153-159 | a `security_audit` report with the severity rule's value, the output as content when it is non-empty and `No output` otherwise, and related task null |
| Api.FeedbackReport | backend/main.py:170-176 | a `user_feedback` report of medium severity whose content is the feedback |
| Api.ContentRule | backend/main.py:137 | content is the output when there is one and `No output` otherwise |
| Api.RunnerReportsNeedFixing | backend/main.py:134-160 | test and audit reports always get a fix task in the next round, with id `fix-None-<cycle>` and a null dependency; feedback reports never do |
| Api.FeedbackInertInRound | backend/main.py:166-180 | the feedback report filed before the round adds no fix task and stays as filed |
| Api.Keep | backend/main.py:197 | a filtered list is no longer than the list and holds only kept elements of it |
| Api.KeepIfActive | backend/main.py:196-197 | an absent or empty filter keeps every element; a set one keeps exactly the elements whose field equals it |
| Api.KeepAppend | backend/main.py:197-204 | filtering distributes over concatenation |
| Api.KeepComplete | backend/main.py:197-204 | every kept element of the list is in the filtered list |
| Api.KeepTwice | backend/main.py:196-204 | two filters in a row are one filter by the conjunction |
| Api.ProjectStatus | backend/main.py:192-205 | an unreadable file is a server error; otherwise the view carries the read status |
| Api.TwoFilters | backend/main.py:196-204 | two optional filters in a row keep exactly the elements that pass both active ones |
| Api.ProjectStatusFilters | backend/main.py:192-205 | the view's tasks and reports are the stored ones filtered by the conjunction of the active filters, in order |
| Api.ProjectStatusExact | backend/main.py:192-205 | a stored task is in the view exactly when it matches every active task filter, and likewise for reports |
| Api.FreshProject | backend/main.py:80-85 | a new project reads back as `{status: init, tasks: [], blockers: []}`, has no tasks, loads as the dispatcher's fallback, shows an empty status view and is left alone by a correction round |
| Api.InitProject | backend/main.py:80-85 | the project's file holds the initial document |
| Api.RunProjectTests | backend/main.py:125-142 | files the test report when the state is readable and writes nothing otherwise |
| Api.RunSecurityAudit | backend/main.py:144-161 | files the audit report when the state is readable and writes nothing otherwise |
| Api.SubmitFeedback | backend/main.py:166-181 | files the feedback report, then stores the result of one correction round on the state with that report; an unreadable state file writes nothing |

## Left out

- HTTP routing, request models, project id generation, `core_mandate.txt`, the markdown placeholder files and the vector store directory of project creation are not modelled. Only the state document written at creation is.
- The test and audit runners, the documentation generator and exporters, the test generator and the vector-store search are not part of this model. Runner output is a parameter (`Option<string>`, with `None` for no output). The export block at the end of `run_workflow` changes no state and is left out.
- The `created_at` clock is a parameter.
- The remote LLM call is an oracle from agent name to outcome. The request payload, the URL, the 60-second timeout and HTTP status codes are not modelled. Every failure inside the request's exception handler (a non-200 answer, an exception from the request or from `add_llm_cost`, a timeout) is one `CallFailed` outcome. Exceptions raised before that handler are not modelled; see the lines on `AgentStep` and the methods below. A reply's cost is an optional real. A cost field that `float()` rejects is not modelled.
- Within one workflow run or one correction round each agent is activated at most once, so an agent-keyed oracle covers every call. Two rounds may be given different oracles.
- `agents.yaml` is a map from agent name to configuration. A config is missing when it is absent or has no key at all (`if not agent_config`); a config with only other keys is present and the call is made. Keys other than `role`, `model` and `tools` are kept as strings, and a key whose YAML value is null is treated as absent. A missing or malformed YAML file, which raises in the source, is not modelled.
- Task and report dictionaries are records of the keys the program uses (`Task`, `Report`). Keys the program does not know, which the source's dictionaries would carry through a read and write, are dropped; only the state document keeps such keys (`other`).
- File I/O: writes never fail, so `save_state`'s error branch is left out. Any exception from `read_state` is one `Malformed` file. JSON formatting, key order and `ensure_ascii` are not modelled.
- Floats are Dafny reals, so sums such as 5.5 + 2.5 are exact.
- Concurrency is not modelled: one dispatcher or endpoint at a time per project.
- `_handle_agent_output` catches its own exceptions. The model's writes do not fail, so nothing is caught.
- `_simulate_agent_execution` is never called and is left out. `get_project_path`, `read_specification`, `get_project_context` (the same as `read_state`) and the ADR file's own format are left out. `append_to_adr` is an append to the `adr_log.md` artifact.
- `run_workflow` calls `run_agent` on ten literal names, and the correction round on three. The model runs the same names in the same order, as one loop (`RunAgents`) over the constant lists `Pipeline` and `Recovery`.
- The source's task dictionaries are mutated through aliases (`_get_next_task_for_agent` returns the dict itself). The model updates the task at the found index, which has the same effect.
- DispatcherProofs.StagesCostMonotone: holds only for non-negative reported costs. The source accepts whatever cost the service reports, negative ones included.
- DispatcherProofs.WorkflowCostMonotone: same restriction to non-negative reported costs.
- DispatcherProofs.CorrectionCostMonotone: same restriction to non-negative reported costs.
- DispatcherProofs.PipelineOutcomes: covers only runs where every agent is configured, every reported cost is at most a common bound, and ten such costs stay under the ceiling. Its cost clause is an upper bound (starting cost plus k times the common bound), not the exact sum of the reported costs. Runs that reach the ceiling midway are covered one activation at a time by `CostCeilingRefuses` and `CeilingScenario`.
- DispatcherSpec.AgentStep: does not model the `KeyError` that `_call_llm_agent` raises when a usable agent under the ceiling takes a task without a `description`. The payload is built outside the request's exception handler (dispatcher.py:163-167). In the source the task stays `in_progress` with `last_agent` set, the project status is not changed, and the exception escapes. The model makes the call anyway. Every task the program creates has a description: the seeded tasks (`WorkflowTasksDescribed`), the fix tasks (`CorrectionTasksDescribed`) and the generated subtasks. So only a task stored without one, by a caller of `add_task` or by hand, reaches this case. A JSON `null` in `current_llm_cost` or `correction_cycle`, which raises `TypeError` at dispatcher.py:156 and :254, is not modelled either: both are read as absent.
- A JSON `null` under any other key the program reads is not modelled either: `status`, `tasks`, `reports`, a task's or report's own keys and the others are `Option`s of non-null values. In the source a `null` survives `read_state`, which fills in only a missing `status` (context_manager.py:44-54). So `status: null` is returned as is by the status endpoint and never triggers a correction round. `tasks: null` or `reports: null` is returned by `get_tasks` as `None`, the status endpoint returns it as `null` when no filter is set and raises `TypeError` in the filter comprehension otherwise (main.py:193-202); the dispatcher's and `update_task_status`'s loops over it (dispatcher.py:226, :238, :262, context_manager.py:140) and `setdefault(...).append` (context_manager.py:129, :152, dispatcher.py:275) raise `TypeError` or `AttributeError`.
- Dispatcher.Dispatcher.CallLlm: the same undescribed-task `KeyError` is not modelled; the method answers as if the payload had been built.
- Dispatcher.Dispatcher.RunAgent: ends in `AgentStep`'s state even for an undescribed pending task, where the source raises after saving the task as `in_progress`.
- Dispatcher.Dispatcher.RunAgents: runs every name even when an earlier activation would have raised on an undescribed task; in the source the remaining agents never run. Within `run_workflow` this cannot happen (`WorkflowTasksDescribed`).
- Dispatcher.Dispatcher.HandleCorrectionCycle: the recovery agents may take a stored task without a description, where the source raises and the round stops; the model runs the round to its end. With described stored tasks it cannot happen (`CorrectionTasksDescribed`).
- Api.SubmitFeedback: inherits the same gap through the correction round it runs; the source's endpoint would fail with the escaping `KeyError`.

The source differs in two places from what its own text announces. In both, this model follows the code:

- The docstring of `_call_llm_agent` (backend/praisonai_core/dispatcher.py:150) announces `done`, `failed` or `skipped`, and `run_agent` has a `skipped` branch. That branch is unreachable, because the function returns only `done` or `failed` (`CallLlm` proves it).
- The cost guard's `llm_cost_limit_exceeded` status never survives `run_agent`. The refusal counts as a failed call, which sets `failed` (`CostCeilingRefuses`).

The `failed` flag does not survive either: it is overwritten by `completed` at the end of `run_workflow` (`LeadQaFailureContinues`).
