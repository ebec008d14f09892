# AgentSynapse core, modelled in Dafny

AgentSynapse is a multi-agent service. An orchestrator splits a user request
into subtasks, plans them in dependency waves and runs each subtask through an
agent engine. The engine drives a tool-calling loop against a language model.
A memory manager assembles a token-budgeted context. Registries keep agents and
versioned tools, and an authentication middleware derives the tenant from the
request.

This project models the sequential core of that system and proves properties of it:

- the wave planner and the plan runner of the orchestrator (`ExecutionPlanning`, `PlanRunner`, `Orchestrator`);
- the agent engine's tool-calling loop, its system prompt and its table of active executions (`AgentEngine`);
- the context assembler, memory ranking and the recency score (`MemoryManager`);
- semantic versions, version history and the version caches (`ToolVersioning`);
- the model client's pure helpers (`Bedrock`);
- the tool registry's id parsing and local cache (`ToolRegistry`);
- the tool executor's guards and dispatch (`ToolExecutor`);
- the authentication middleware's parsing and tenant derivation (`Auth`);
- the agent registry's Decimal conversion, update expressions and cache (`AgentRegistry`);
- the lakehouse query tool (`Lakehouse`).

`Values`, `Strings`, `Sorting` and `Schemas` hold the shared vocabulary:
- Python values, with dicts as ordered association lists;
- Python string operations;
- the stable descending sort behind `sorted(..., reverse=True)`;
- the records, enumerations, exceptions and configuration defaults.

Everything outside the process is a parameter of the model:
- the language model, the tool outcomes, the database rows, the HTTP answers;
- the clock and the id generator.

Each of these is either a value supplied up front or a function from the request to its answer.
Objects whose fields the source updates in place are classes:
- the subtasks;
- the engine's execution records, and the engine itself, which holds the active executions;
- the semantic memories, whose relevance score `_rankMemories` writes in place;
- the headers dict of a YAML tool config, which `_executeHttpTool` writes the Authorization header into;
- the registries;
- the version caches.

Everything else is a datatype with functions over it.

## Model

| member | source | states |
|---|---|---|
| ExecutionPlanning.Subtask.constructor | AgentSynapse/agents/orchestrator/agentOrchestrator.py:123-130 | a new subtask carries the decomposed fields, is IDLE and has no result |
| ExecutionPlanning.TaskMap | AgentSynapse/agents/orchestrator/agentOrchestrator.py:149 | the task map is keyed by exactly the task ids and maps each id to a task of the list with that id |
| ExecutionPlanning.BuildExecutionPlan | AgentSynapse/agents/orchestrator/agentOrchestrator.py:140-176 | the waves built are the reference layering; the sequential bucket holds the single-task waves and the parallel bucket the larger ones, in wave order; every scheduled task appears exactly once across the two buckets |
| ExecutionPlanning.LayerTasks | AgentSynapse/agents/orchestrator/agentOrchestrator.py:153-168 | the `while remaining` loop produces the reference layering, each wave duplicate-free and drawn from the task map |
| ExecutionPlanning.CollectWave | AgentSynapse/agents/orchestrator/agentOrchestrator.py:155-161 | one pass collects exactly the tasks whose dependencies are all completed, removes them from `remaining`, and shrinks it whenever the wave is non-empty |
| ExecutionPlanning.FileWaves | AgentSynapse/agents/orchestrator/agentOrchestrator.py:170-174 | waves of one task go to "sequential" and larger waves to "parallel", each bucket in wave order, holding the tasks looked up by id |
| ExecutionPlanning.Lookup | AgentSynapse/agents/orchestrator/agentOrchestrator.py:158 | the tasks looked up for a wave have exactly the wave's ids and are the task map's entries |
| ExecutionPlanning.ReadyShrinks | AgentSynapse/agents/orchestrator/agentOrchestrator.py:154-165 | a pass that collects a task strictly shrinks `remaining`, so planning terminates |
| ExecutionPlanning.LayersWithin | AgentSynapse/agents/orchestrator/agentOrchestrator.py:154-167 | every wave is non-empty and drawn from the remaining tasks |
| ExecutionPlanning.LayersDisjoint | AgentSynapse/agents/orchestrator/agentOrchestrator.py:157-168 | no task is in two waves |
| ExecutionPlanning.LayersReady | AgentSynapse/agents/orchestrator/agentOrchestrator.py:157-168 | each task was ready when its wave was formed: its dependencies are completed or in earlier waves |
| ExecutionPlanning.LayersStuck | AgentSynapse/agents/orchestrator/agentOrchestrator.py:163-165 | after the loop stops, no remaining task is ready against everything scheduled |
| ExecutionPlanning.DependenciesInEarlierWaves | AgentSynapse/agents/orchestrator/agentOrchestrator.py:157-168 | every dependency of a task lies in a strictly earlier wave |
| ExecutionPlanning.ScheduledClosed | AgentSynapse/agents/orchestrator/agentOrchestrator.py:159 | every dependency of a scheduled task is scheduled |
| ExecutionPlanning.UnscheduledAreStuck | AgentSynapse/agents/orchestrator/agentOrchestrator.py:163-165 | every unscheduled task has an unscheduled dependency |
| ExecutionPlanning.UnknownDependencyNeverScheduled | AgentSynapse/agents/orchestrator/agentOrchestrator.py:159 | a task depending on an id outside the task list is never scheduled |
| ExecutionPlanning.WaveIndexDrops | AgentSynapse/agents/orchestrator/agentOrchestrator.py:157-168 | walking a dependency chain from a scheduled task, the wave index drops by at least one per step |
| ExecutionPlanning.CycleNeverScheduled | AgentSynapse/agents/orchestrator/agentOrchestrator.py:154-165 | no task on a dependency cycle is ever scheduled |
| ExecutionPlanning.BucketsCover | AgentSynapse/agents/orchestrator/agentOrchestrator.py:170-174 | together the two buckets hold exactly the ids of the waves |
| ExecutionPlanning.BucketsDistinct | AgentSynapse/agents/orchestrator/agentOrchestrator.py:170-174 | each bucket lists its ids once, and the two buckets share none |
| ExecutionPlanning.BucketsPartition | AgentSynapse/agents/orchestrator/agentOrchestrator.py:170-174 | the buckets concatenated list every scheduled task exactly once |
| ExecutionPlanning.ExampleDiamond | AgentSynapse/agents/orchestrator/agentOrchestrator.py:154-168 | A and B independent and C depending on both gives the waves {A, B} then {C} |
| ExecutionPlanning.DependentSubtasksNeverScheduled | AgentSynapse/agents/orchestrator/agentOrchestrator.py:124-127 | subtasks get fresh ids that no decomposed dependency can name, so a subtask with any dependency is never scheduled |
| PlanRunner.FirstRaise | AgentSynapse/agents/orchestrator/agentOrchestrator.py:187-191 | the index of the first sequential task that raises: every task before it succeeds, and that one fails |
| PlanRunner.RecordedKeys | AgentSynapse/agents/orchestrator/agentOrchestrator.py:189 | recording adds exactly the tasks' ids to the keys of `results` |
| PlanRunner.RecordedValues | AgentSynapse/agents/orchestrator/agentOrchestrator.py:209-216 | each recorded id maps to the entry of its own outcome, and other ids keep their entries |
| PlanRunner.RecordedPlan | AgentSynapse/agents/orchestrator/agentOrchestrator.py:185-218 | the results of a plan that ran through hold exactly its tasks' ids, each with the entry of its own outcome |
| PlanRunner.UniqueIdsOfDistinct | AgentSynapse/agents/orchestrator/agentOrchestrator.py:170-174 | a plan whose ids are distinct holds no task twice |
| PlanRunner.RunSequential | AgentSynapse/agents/orchestrator/agentOrchestrator.py:187-191 | the sequential tasks run in order, each COMPLETED with its result; the first one that raises aborts with its error and leaves itself and the rest untouched |
| PlanRunner.RunParallel | AgentSynapse/agents/orchestrator/agentOrchestrator.py:209-216 | every parallel task gets exactly one entry: an `{"error": ...}` entry and FAILED when it raises, otherwise its result and COMPLETED |
| PlanRunner.ExecuteParallelTasks | AgentSynapse/agents/orchestrator/agentOrchestrator.py:178-218 | the sequential bucket runs completely before any parallel task; a sequential failure aborts the call and no parallel task changes; the semaphore size is min(len(parallel), maxParallelAgents) |
| Orchestrator.PromptTable | AgentSynapse/agents/orchestrator/agentOrchestrator.py:317-323 | the prompt table has an entry for every agent type except CUSTOM |
| Orchestrator.DefaultSystemPrompt | AgentSynapse/agents/orchestrator/agentOrchestrator.py:329 | the table's prompt, or "You are a helpful AI assistant." for a type outside it |
| Orchestrator.OrchestratorAgent | AgentSynapse/agents/orchestrator/agentOrchestrator.py:302-310 | the registered orchestrator when there is one; otherwise a new default orchestrator agent of the tenant, with the orchestrator prompt and no tools, unless its registration raised, which is then the error |
| Orchestrator.CreateDefaultAgent | AgentSynapse/agents/orchestrator/agentOrchestrator.py:312-337 | the default agent has the given type and tenant, the table prompt, temperature 0.7, maxTokens 4096, no tools and the schema defaults |
| Orchestrator.DecomposeTask | AgentSynapse/agents/orchestrator/agentOrchestrator.py:114-138 | a reply that is not a JSON object raises AttributeError, and "tasks" that is truthy but not a list, or whose first entry that builds no subtask is not an object, raises TypeError; an unparsable reply, missing or falsy "tasks", an empty list or a first failing entry that is an object with a missing key or an unknown agent type gives `[]`; otherwise one fresh IDLE subtask per entry, in order, with the entry's fields and the defaults |
| Orchestrator.SynthesisText | AgentSynapse/agents/orchestrator/agentOrchestrator.py:278 | the engine's answer when non-empty, otherwise "Unable to synthesize results"; never empty |
| Orchestrator.SingleAgentPayload | AgentSynapse/agents/orchestrator/agentOrchestrator.py:280-299 | the engine's answer with empty tasks, results and plan, or the engine's error |
| Orchestrator.BucketSingles | AgentSynapse/agents/orchestrator/agentOrchestrator.py:170-174 | filing duplicate-free waves by size puts exactly the one-task waves, in wave order, into "sequential" |
| Orchestrator.FirstErrorOfRaise | AgentSynapse/agents/orchestrator/agentOrchestrator.py:187-191 | the first sequential task that raises, by position, carries the first error among the ids in order |
| Orchestrator.RunOutcomeIs | AgentSynapse/agents/orchestrator/agentOrchestrator.py:178-218 | an outcome that fails with that first error, or else holds the entry of every scheduled subtask, is the reference outcome |
| Orchestrator.PlanAndRun | AgentSynapse/agents/orchestrator/agentOrchestrator.py:47-54 | the outcome is the reference outcome of the subtasks: the error of the first one-task wave whose subtask raises, or an entry for every scheduled subtask from its own outcome; the sequential bucket is the one-task waves in order and the buckets hold every scheduled subtask |
| Orchestrator.Orchestrate | AgentSynapse/agents/orchestrator/agentOrchestrator.py:28-69 | with no registered orchestrator a failed registration of the default one ends the call before decomposition; a reply that raises ends it with that exception; with no subtasks the request goes to the orchestrator agent alone at depth 0; otherwise the subtasks are the decomposed entries, the call fails with the first error of the run or of the depth-1 synthesis, and succeeds exactly when neither raises, returning the synthesis text, those subtasks, the reference results and a plan of the scheduled subtasks |
| AgentEngine.Execution.constructor | AgentSynapse/core/agentEngine.py:43-51 | a new execution record is RUNNING with no answer, no tool calls, no tokens and no error, and carries the agent, session, tenant, message, parent and depth |
| AgentEngine.FactLines | AgentSynapse/core/agentEngine.py:258-261 | one "- " line per semantic content, in order |
| AgentEngine.LeadingFacts | AgentSynapse/core/agentEngine.py:260 | at most the first five semantic contents, as a prefix |
| AgentEngine.BuildSystemPrompt | AgentSynapse/core/agentEngine.py:250-268 | the system prompt from the agent's prompt and the retrieved memory; its properties are stated by PromptUnchangedWithoutMemory, PromptKeepsBase, PromptMentionsFact and PromptMentionsPattern |
| AgentEngine.PromptUnchangedWithoutMemory | AgentSynapse/core/agentEngine.py:250-268 | with no semantic facts and no patterns the prompt is the agent's own |
| AgentEngine.PromptKeepsBase | AgentSynapse/core/agentEngine.py:255 | the agent's own prompt always comes first |
| AgentEngine.PromptMentionsFact | AgentSynapse/core/agentEngine.py:257-262 | each of the first five semantic facts appears as a "- " line |
| AgentEngine.PromptMentionsPattern | AgentSynapse/core/agentEngine.py:264-266 | every procedural pattern name appears |
| AgentEngine.FirstNamed | AgentSynapse/core/agentEngine.py:146 | the first loaded tool with the requested name: no earlier tool has that name |
| AgentEngine.UnknownToolReported | AgentSynapse/core/agentEngine.py:155-156 | a call naming no loaded tool records {"error": "Tool <name> not found"} |
| AgentEngine.FirstMatchRuns | AgentSynapse/core/agentEngine.py:162-177 | a call naming a loaded tool records the executor's result for the first such tool, or {"error": str(e)} when the executor raises |
| AgentEngine.Records | AgentSynapse/core/agentEngine.py:145-189 | one toolCalls record per requested call, in order |
| AgentEngine.ResultMessages | AgentSynapse/core/agentEngine.py:191-193 | one tool-result message per record, in order |
| AgentEngine.ResultMessagesPaired | AgentSynapse/core/agentEngine.py:184-193 | the tool-result messages carry the records' ids, one for one |
| AgentEngine.RunToolCalls | AgentSynapse/core/agentEngine.py:145-193 | the inner loop appends exactly the round's records to toolCalls and returns the matching tool-result messages; status, answer, tokens and error are unchanged |
| AgentEngine.StepOf | AgentSynapse/core/agentEngine.py:101-143 | one pass never lowers the token total; a pass that goes on stays within the ceiling; a total past the ceiling raises TokenLimitExceeded with that total |
| AgentEngine.StepPaired | AgentSynapse/core/agentEngine.py:140-193 | a pass that goes on appends one tool-result message per record, with the record's id, after the assistant turn |
| AgentEngine.RunLoop | AgentSynapse/core/agentEngine.py:98-138 | the loop makes at most ten model calls, at least one more from any state below ten, and ends for want of calls only at ten |
| AgentEngine.LoopPairing | AgentSynapse/core/agentEngine.py:140-193 | the loop only appends, to the transcript and to the records, and pairs tool-result messages with records one to one |
| AgentEngine.LoopTokenCeiling | AgentSynapse/core/agentEngine.py:112-115 | starting within the ceiling, the loop stays within it or raises TokenLimitExceeded with the total that broke it |
| AgentEngine.RunLoopUnfold | AgentSynapse/core/agentEngine.py:101-143 | one unfolding of the loop: an answer or an exception ends it; otherwise it goes on from the extended transcript |
| AgentEngine.LoopBody | AgentSynapse/core/agentEngine.py:101-193 | one pass on the execution: a final answer sets agentResponse; a tool round appends its records; the loop continues as the reference loop says |
| AgentEngine.ToolLoop | AgentSynapse/core/agentEngine.py:97-197 | the while loop yields the reference loop's result, and the execution's toolCalls and answer are that result's |
| AgentEngine.ToolNames | AgentSynapse/core/agentEngine.py:221 | the episodic record's tool names are the records' names, in order |
| AgentEngine.WritesAfter | AgentSynapse/core/agentEngine.py:202-224 | the user turn is always written; the assistant turn and the episodic record only for a non-empty answer, with importance 0.6 at depth 0 and 0.4 below, and outcome "success" iff the run completed |
| AgentEngine.Perform | AgentSynapse/core/agentEngine.py:202-224 | the writes that went through are the ones before the first write that raised, and that write's exception is the failure; with no failure every write went through |
| AgentEngine.SemanticContents | AgentSynapse/core/agentEngine.py:259-260 | the contents of the semantic memories, in order |
| AgentEngine.Attempt | AgentSynapse/core/agentEngine.py:56-197 | the try block makes at most ten model calls |
| AgentEngine.AttemptCompletes | AgentSynapse/core/agentEngine.py:133-138 | a run that did not raise and made fewer than ten calls ended with an answer, within the token ceiling |
| AgentEngine.AttemptPairing | AgentSynapse/core/agentEngine.py:92-95 | the transcript starts with the history and the user's message, and its tool-result messages pair one for one with the toolCalls records |
| AgentEngine.RunAttempt | AgentSynapse/core/agentEngine.py:56-234 | the try block on a fresh execution: a loop exception leaves it untouched and writes nothing; otherwise the status is COMPLETED below ten calls and FAILED "Max iterations exceeded" at ten, tokensUsed is set only with an answer, and the memory writes are made until one raises, whose exception is the failure |
| AgentEngine.Handle | AgentSynapse/core/agentEngine.py:56-244 | an exception of the loop or of a memory write marks the execution FAILED with its message, even after a completed run, and is re-raised as AgentExecutionError; otherwise the execution is returned |
| AgentEngine.Engine.constructor | AgentSynapse/core/agentEngine.py:24-29 | the engine starts with no active executions |
| AgentEngine.Engine.Execute | AgentSynapse/core/agentEngine.py:31-248 | at depth >= maxRecursionDepth RecursionDepthExceeded is raised before any record, registration or collaborator call; otherwise a fresh execution is registered, run and concluded, and its registration is removed on every path |
| AgentEngine.Engine.ActiveFor | AgentSynapse/core/agentEngine.py:312-316 | exactly the active executions of the given tenant |
| AgentEngine.Engine.CancelExecution | AgentSynapse/core/agentEngine.py:318-325 | True, CANCELLED and removed iff the id is active; otherwise False with the map unchanged |
| AgentEngine.ActiveForIsolated | AgentSynapse/core/agentEngine.py:312-316 | two tenants never see the same execution, and each sees only active ones |
| MemoryManager.SemanticMemory.constructor | AgentSynapse/memory/memoryManager.py:116-120 | a searched memory carries its record and creation time and has no relevance score yet |
| MemoryManager.InteractionRecord | AgentSynapse/memory/memoryManager.py:41-53 | the episodic record is "User: <message>\nAgent: <response>" with the tenant, session, agent, outcome, importance and tools, source SYSTEM_DERIVED and confidence 1.0 |
| MemoryManager.FactRecord | AgentSynapse/memory/memoryManager.py:67-78 | the semantic record holds the fact; confidence is 0.8 iff the source is AGENT_INFERRED and 1.0 otherwise; missing tags and entities become empty lists |
| MemoryManager.RecencyScore | AgentSynapse/memory/memoryManager.py:164-173 | the piecewise recency score; its properties are stated by RecencyRanges, RecencyContinuous, RecencyNonIncreasing, RecencyTailSlope and RecencyNegative |
| MemoryManager.RecencyRanges | AgentSynapse/memory/memoryManager.py:164-173 | the score is 1.0 below the threshold t, in (0.5, 1.0] on [t, 4t) and at most 0.5 from 4t on |
| MemoryManager.RecencyContinuous | AgentSynapse/memory/memoryManager.py:168-173 | the pieces meet: 1.0 at t and 0.5 at 4t from both sides |
| MemoryManager.RecencyNonIncreasing | AgentSynapse/memory/memoryManager.py:164-173 | an older memory never scores higher |
| MemoryManager.RecencyTailSlope | AgentSynapse/memory/memoryManager.py:173 | past 4t the score falls by 0.04 per threshold's worth of days |
| MemoryManager.RecencyNegative | AgentSynapse/memory/memoryManager.py:173 | with no clamp the score is negative exactly past 16.5 thresholds |
| MemoryManager.Relevance | AgentSynapse/memory/memoryManager.py:152-156 | 0.3·recency + 0.4·importance + 0.3·confidence lies in [0, 1] when its three inputs do |
| MemoryManager.RankedSorted | AgentSynapse/memory/memoryManager.py:158-162 | the ranking is a permutation of its input, sorted by non-increasing relevance |
| MemoryManager.RankedStable | AgentSynapse/memory/memoryManager.py:158-162 | memories with equal relevance keep their input order |
| MemoryManager.RankMemories | AgentSynapse/memory/memoryManager.py:140-162 | every memory gets its relevance score in place, and the result is the stable ranking by that score |
| MemoryManager.AdmittedFit | AgentSynapse/memory/memoryManager.py:107-113 | every admitted item fitted, strictly under the budget, when it was admitted |
| MemoryManager.AdmittedStops | AgentSynapse/memory/memoryManager.py:109-113 | the first item left out is one that would not fit |
| MemoryManager.AdmittedWithin | AgentSynapse/memory/memoryManager.py:107-113 | starting under budget, the greedy loop ends under budget |
| MemoryManager.Fill | AgentSynapse/memory/memoryManager.py:107-130 | the greedy loop admits the reference number of items, a prefix, and adds exactly their costs to the total |
| MemoryManager.EpisodicCosts | AgentSynapse/memory/memoryManager.py:108 | each episodic record costs countTokens of its content |
| MemoryManager.SemanticCosts | AgentSynapse/memory/memoryManager.py:125 | each semantic memory costs countTokens of its content |
| MemoryManager.FirstThree | AgentSynapse/memory/memoryManager.py:136 | the procedural tier is the first three pattern names, or all of them when there are fewer |
| MemoryManager.RetrieveContext | AgentSynapse/memory/memoryManager.py:82-138 | the assembled context; the semantic tier is searched and ranked only when the total after the episodic tier is under 70% of the budget |
| MemoryManager.Assemble | AgentSynapse/memory/memoryManager.py:82-138 | the context `retrieveContext` assembles; its properties are stated by RetrieveContext, ContextWithinBudget, ContextTotal, ContextPrefixes, ContextGates, EpisodicGreedy and SemanticGreedy |
| MemoryManager.ContextWithinBudget | AgentSynapse/memory/memoryManager.py:99-130 | a working snapshot under budget keeps the final total under budget |
| MemoryManager.ContextTotal | AgentSynapse/memory/memoryManager.py:99-136 | the total is the working cost plus the full cost of every admitted episodic and semantic item; procedural names add nothing |
| MemoryManager.ContextPrefixes | AgentSynapse/memory/memoryManager.py:98-136 | the working snapshot is kept; the admitted episodic records are a prefix of the retrieved list, the admitted semantic memories a prefix of the ranked list, and the procedural names at most the first three |
| MemoryManager.ContextGates | AgentSynapse/memory/memoryManager.py:101-115 | no episodic record unless the working total is under budget; no semantic memory unless the total after the episodic tier is under 70% of it |
| MemoryManager.EpisodicGreedy | AgentSynapse/memory/memoryManager.py:107-113 | when the episodic tier stops early, the next record would not have fitted |
| MemoryManager.SemanticGreedy | AgentSynapse/memory/memoryManager.py:124-130 | when the semantic tier stops early, the next ranked memory would not have fitted |
| ToolVersioning.ValidVersion | AgentSynapse/tools/versioning/toolVersioning.py:26 | the semantic-version pattern; its properties are stated by ValidVersionJoin and ValidVersionParts |
| ToolVersioning.ParseVersionTuple | AgentSynapse/tools/versioning/toolVersioning.py:68-81 | `parseVersion`, with (0, 0, 0) for an invalid version; its properties are stated by FormatParse, HistorySorted and NextVersionBumps |
| ToolVersioning.ValidVersionJoin | AgentSynapse/tools/versioning/toolVersioning.py:26 | three digit runs joined by dots form a valid version and split back into the three runs |
| ToolVersioning.ValidVersionParts | AgentSynapse/tools/versioning/toolVersioning.py:68-69 | a valid version is exactly three dot-separated parts joined back together |
| ToolVersioning.FormatParse | AgentSynapse/tools/versioning/toolVersioning.py:77-81 | formatting a version tuple gives a valid version that parses back to the tuple |
| ToolVersioning.Bump | AgentSynapse/tools/versioning/toolVersioning.py:254-262 | every release type moves the version tuple strictly forward |
| ToolVersioning.NextVersion | AgentSynapse/tools/versioning/toolVersioning.py:246-264 | an invalid current version is rejected with InvalidToolDefinition, exactly when it is invalid |
| ToolVersioning.NextVersionBumps | AgentSynapse/tools/versioning/toolVersioning.py:246-264 | for a valid version: MAJOR gives (M+1,0,0), MINOR (M,m+1,0), PATCH (M,m,p+1); the result is valid and strictly greater |
| ToolVersioning.Records | AgentSynapse/tools/versioning/toolVersioning.py:182-186 | one version record per row, in order, tagged with its source |
| ToolVersioning.TenantRows | AgentSynapse/tools/versioning/toolVersioning.py:113-114 | the rows kept are all rows, or only the active ones (a missing "isActive" counts as active) |
| ToolVersioning.PublicRows | AgentSynapse/tools/versioning/toolVersioning.py:135-139 | the public query keeps exactly the rows with permission "public", and only active ones unless inactive rows are asked for |
| ToolVersioning.Concat | AgentSynapse/tools/versioning/toolVersioning.py:97-111 | the rows of all pages, in page order: a row is kept iff some page has it |
| ToolVersioning.PublicGathered | AgentSynapse/tools/versioning/toolVersioning.py:131-149 | every gathered public row is public, and active unless inactive rows are asked for |
| ToolVersioning.DedupOf | AgentSynapse/tools/versioning/toolVersioning.py:188-196 | the `unique` dict lists every version once and files each record under its own version |
| ToolVersioning.FirstWith | AgentSynapse/tools/versioning/toolVersioning.py:193-194 | the first record with a version, present iff some record has it |
| ToolVersioning.LastTenantWith | AgentSynapse/tools/versioning/toolVersioning.py:195-196 | the last tenant record with a version |
| ToolVersioning.Pick | AgentSynapse/tools/versioning/toolVersioning.py:193-196 | the record kept for a version exists exactly when some record has it |
| ToolVersioning.DedupPicks | AgentSynapse/tools/versioning/toolVersioning.py:188-196 | the loop keeps exactly the non-empty versions, and under each the last tenant record, or else the first record |
| ToolVersioning.ValuesOf | AgentSynapse/tools/versioning/toolVersioning.py:198 | one value per key, in key insertion order |
| ToolVersioning.With | AgentSynapse/tools/versioning/toolVersioning.py:231 | the records of a history with a given version |
| ToolVersioning.WithValues | AgentSynapse/tools/versioning/toolVersioning.py:188-198 | the values of a deduplicated dict hold exactly one record per stored version and none for others |
| ToolVersioning.HistoryOnePerVersion | AgentSynapse/tools/versioning/toolVersioning.py:172-199 | the history holds exactly one record per non-empty version of the gathered rows: the tenant record when there is one |
| ToolVersioning.HistorySorted | AgentSynapse/tools/versioning/toolVersioning.py:165-170 | the history is sorted by non-increasing parsed version |
| ToolVersioning.LatestOf | AgentSynapse/tools/versioning/toolVersioning.py:213-215 | the latest version is the head's version, and None for an empty history |
| ToolVersioning.LatestExists | AgentSynapse/tools/versioning/toolVersioning.py:201-215 | there is a latest version exactly when some row carries a non-empty version, and it is non-empty |
| ToolVersioning.LatestIsGreatest | AgentSynapse/tools/versioning/toolVersioning.py:201-215 | the latest version is at least every version of the history |
| ToolVersioning.InHistoryIff | AgentSynapse/tools/versioning/toolVersioning.py:217-231 | a non-empty version is in the history exactly when some gathered row carries it |
| ToolVersioning.AvailabilityIff | AgentSynapse/tools/versioning/toolVersioning.py:233-244 | a version is available exactly when it is valid and no tenant row carries it, inactive rows included; the error says which check failed |
| ToolVersioning.NextForAbove | AgentSynapse/tools/versioning/toolVersioning.py:266-276 | "1.0.0" when there is no latest version; otherwise a valid version strictly above the latest, failing only when the latest is itself invalid |
| ToolVersioning.InvalidatedDropsPair | AgentSynapse/tools/versioning/toolVersioning.py:52-63 | invalidating a (tenant, tool) pair with either part non-empty drops that pair's entry |
| ToolVersioning.InvalidatedForcesRefetch | AgentSynapse/tools/versioning/toolVersioning.py:52-63 | tenant and tool remove exactly "tenant:tool"; the tenant alone removes every "tenant:" key; the tool alone every ":tool" key; neither removes nothing |
| ToolVersioning.StaleCacheHidesInactive | AgentSynapse/tools/versioning/toolVersioning.py:89-91 | after an active-only lookup fills the cache, a lookup that includes inactive rows still sees only the active ones, so a version that exists only inactive passes the availability check |
| ToolVersioning.GatheredFails | AgentSynapse/tools/versioning/toolVersioning.py:83-152 | gathering fails exactly when a query it had to make raised: the tenant query of an uncached pair, or the public query of an uncached name once the tenant rows are in hand; the failure is the client's exception |
| ToolVersioning.GatheredRepeat | AgentSynapse/tools/versioning/toolVersioning.py:89-91 | after a successful gathering, gathering again with the same filter reads the same records back from the caches, whatever the table says, and leaves the caches as they are |
| ToolVersioning.AvailableFromIff | AgentSynapse/tools/versioning/toolVersioning.py:233-244 | a version is available exactly when it is valid, the tenant rows could be read and none carries it; an invalid version, a failed read and an existing version each give their own error |
| ToolVersioning.Dedup | AgentSynapse/tools/versioning/toolVersioning.py:188-196 | the deduplication loop computes the reference `unique` dict |
| ToolVersioning.Versioning.constructor | AgentSynapse/tools/versioning/toolVersioning.py:23-28 | both caches start empty |
| ToolVersioning.Versioning.ClearCache | AgentSynapse/tools/versioning/toolVersioning.py:47-50 | both caches are emptied |
| ToolVersioning.Versioning.InvalidateCache | AgentSynapse/tools/versioning/toolVersioning.py:52-66 | the tenant cache loses exactly the evicted entries, the public entry of a named tool is dropped, and the pair's own entry is gone whenever either part is non-empty |
| ToolVersioning.Versioning.FetchTenantVersions | AgentSynapse/tools/versioning/toolVersioning.py:83-117 | a cached list is returned unchanged whatever includeInactive is; otherwise all pages are read, filtered and cached under "tenant:tool"; a failed query raises and caches nothing |
| ToolVersioning.Versioning.FetchPublicVersions | AgentSynapse/tools/versioning/toolVersioning.py:119-152 | a cached list is returned unchanged; otherwise the filtered rows of all pages are read and cached under the tool name; a failed query raises and caches nothing |
| ToolVersioning.Versioning.GetVersionHistory | AgentSynapse/tools/versioning/toolVersioning.py:172-199 | the history of the gathered rows, deduplicated and sorted, or the exception of the first failed fetch, with the caches filled by the fetches that succeeded |
| ToolVersioning.Versioning.GetLatestVersion | AgentSynapse/tools/versioning/toolVersioning.py:201-215 | the latest version of the active-only history from the cache state at the call, or the exception of a failed query, with the caches as the history fetches leave them |
| ToolVersioning.Versioning.VersionExists | AgentSynapse/tools/versioning/toolVersioning.py:217-231 | an invalid version raises and leaves the caches alone; otherwise whether the tenant history has the version, or the exception of a failed query |
| ToolVersioning.Versioning.EnsureVersionAvailable | AgentSynapse/tools/versioning/toolVersioning.py:233-244 | the availability of the version against the tenant rows, inactive included, as read through the cache; the tenant rows are cached once read and the public cache is untouched |
| ToolVersioning.Versioning.GetNextVersion | AgentSynapse/tools/versioning/toolVersioning.py:266-276 | the next version for the latest version found from the cache state at the call, or the exception of a failed query, with the caches as getLatestVersion leaves them |
| Bedrock.CountTokens | AgentSynapse/core/bedrockClient.py:169-170 | the estimate is a quarter of the length, rounded down: 4n <= len < 4n + 4 |
| Bedrock.FormatMessages | AgentSynapse/core/bedrockClient.py:172-187 | the history followed by exactly one user message with the given text |
| Bedrock.FormatToolResult | AgentSynapse/core/bedrockClient.py:189-199 | a user turn with one tool_result block for the given id; a string result passes through and any other value is JSON-encoded |
| Bedrock.ExtractToolCalls | AgentSynapse/core/bedrockClient.py:201-213 | every extracted call comes from a tool_use block, with a missing input read as {}, and there are no more calls than blocks |
| Bedrock.ExtractToolCallsAppend | AgentSynapse/core/bedrockClient.py:205-211 | extraction distributes over concatenated block lists, so it keeps block order |
| Bedrock.NoToolCalls | AgentSynapse/core/bedrockClient.py:201-213 | no calls are extracted exactly when no block is a tool_use block |
| Bedrock.FirstText | AgentSynapse/core/bedrockClient.py:218-219 | the index of the first text block: no earlier block is a text block |
| Bedrock.ExtractTextResponse | AgentSynapse/core/bedrockClient.py:215-222 | the text of the first text block ("" when it has none), or "" when no block is a text block |
| Bedrock.RequestBodyOf | AgentSynapse/core/bedrockClient.py:52-66 | the body always has anthropic_version, messages, max_tokens and temperature, and has system, tools and stop_sequences exactly when the argument is truthy |
| ToolRegistry.ParseToolId | AgentSynapse/tools/registry/toolRegistry.py:245-247 | the split of a tool id into name and version; its properties are stated by ParseToolIdFields and ParseToolIdName |
| ToolRegistry.ParseToolIdFields | AgentSynapse/tools/registry/toolRegistry.py:245-247 | an id without ":" has version "1.0.0"; otherwise the version is the second ":"-field and later fields are ignored |
| ToolRegistry.ParseToolIdName | AgentSynapse/tools/registry/toolRegistry.py:245-246 | the parsed name is the ":"-free prefix of the id, followed by ":" or by nothing |
| ToolRegistry.ResolveVersion | AgentSynapse/tools/registry/toolRegistry.py:249-256 | "latest" gives way to the resolved version when there is one and passes through otherwise; other versions are unchanged |
| ToolRegistry.DecodeAll | AgentSynapse/tools/registry/toolRegistry.py:143 | every row decoded, in order, or nothing when one row fails to decode |
| ToolRegistry.LookupHitIgnoresTable | AgentSynapse/tools/registry/toolRegistry.py:92-95 | a cache hit on "tenant:name:version" is answered from the cache, whatever the table holds |
| ToolRegistry.LookupCaching | AgentSynapse/tools/registry/toolRegistry.py:99-128 | only a tool read from the tenant's own rows is cached, the public fallback is not, and every failure is ToolNotFound |
| ToolRegistry.LookupRepeat | AgentSynapse/tools/registry/toolRegistry.py:92-122 | once a lookup has cached its tool, asking again gives the same tool and the same cache |
| ToolRegistry.Successes | AgentSynapse/tools/registry/toolRegistry.py:258-269 | the tools that were found, in order, never more than the ids |
| ToolRegistry.GetFromOutcome | AgentSynapse/tools/registry/toolRegistry.py:75-128 | a failure of `get` is ToolNotFound, except a version query that failed while resolving "latest", which escapes as the client's exception; the local cache only grows |
| ToolRegistry.ToolFromLookup | AgentSynapse/tools/registry/toolRegistry.py:244-267 | a round is the lookup of the parsed id at its resolved version; an unresolved "latest" is ToolNotFound of the name because `get` resolves it again from the caches and finds nothing again; a failed resolution escapes |
| ToolRegistry.ResolvedLookup | AgentSynapse/tools/registry/toolRegistry.py:81-95 | the version a resolution found is looked up in `get` as it is, even one stored as "latest", and the version caches stay as the resolution left them |
| ToolRegistry.UnresolvedAgain | AgentSynapse/tools/registry/toolRegistry.py:81-87 | when "latest" resolved to nothing, `get` resolving it again from the filled caches finds nothing again, raises ToolNotFound of the name and changes no cache |
| ToolRegistry.ToolFromCached | AgentSynapse/tools/registry/toolRegistry.py:92-95 | a concrete version whose tool is cached is answered from the cache and no cache changes |
| ToolRegistry.ToolsFromStops | AgentSynapse/tools/registry/toolRegistry.py:244-267 | once an exception ended the call, the later ids change nothing |
| ToolRegistry.ToolsFromOutcomes | AgentSynapse/tools/registry/toolRegistry.py:237-269 | every id has one outcome, in order, each failure ToolNotFound; the call fails only with a failed version query; cached tools stay cached |
| ToolRegistry.ToolsFromAllCached | AgentSynapse/tools/registry/toolRegistry.py:237-269 | when every id is a cached concrete version, the tools are the cached ones in order, whatever the table holds, and no cache changes |
| ToolRegistry.LatestQueryFailureEscapes | AgentSynapse/tools/registry/toolRegistry.py:249-256 | an uncached "name:latest" whose version query fails ends the call with the client's exception instead of being dropped |
| ToolRegistry.Registry.constructor | AgentSynapse/tools/registry/toolRegistry.py:15-18 | the local cache starts empty |
| ToolRegistry.Registry.Get | AgentSynapse/tools/registry/toolRegistry.py:75-128 | the answer and the three caches are those of the reference `get`: a concrete version is looked up; "latest" is resolved over tenant and public active versions first, a failed version query escapes as it is, and an unresolved "latest" is ToolNotFound of the name |
| ToolRegistry.Registry.Register | AgentSynapse/tools/registry/toolRegistry.py:34-73 | version availability is checked before the write, and its error, a failed version query included, is raised as it is; a failed put raises InvalidToolDefinition and leaves the cache; a successful put caches the tool and returns its id; the version caches are those the availability check leaves, and after a successful put the pair's tenant entry and the name's public entry are invalidated |
| ToolRegistry.Registry.Deactivate | AgentSynapse/tools/registry/toolRegistry.py:194-235 | "latest" with no active tenant version returns False and changes nothing but the tenant rows it read; a failed version query escapes; a successful update evicts the resolved key and invalidates the pair's version caches; a failed update returns False; the public version cache changes only by that invalidation |
| ToolRegistry.Registry.ToolFor | AgentSynapse/tools/registry/toolRegistry.py:244-267 | the answer and the three caches are those of the reference round: the id parsed, "latest" resolved (a failed query escapes), and the resolved version, or "latest" again, handed to `get` |
| ToolRegistry.Registry.GetToolsForAgent | AgentSynapse/tools/registry/toolRegistry.py:237-269 | the tools and the three caches are those of the reference fold: one round per id in order, ToolNotFound ids dropped, any other exception ending the call |
| ToolRegistry.Registry.ClearCache | AgentSynapse/tools/registry/toolRegistry.py:271-274 | the local cache and both version caches are empty |
| ToolExecutor.FormatForBedrock | AgentSynapse/tools/executor/toolExecutor.py:203-208 | the Bedrock tool carries exactly the tool's name, description and input schema |
| ToolExecutor.WithAuthorization | AgentSynapse/tools/executor/toolExecutor.py:102-103 | a non-empty token sets "Authorization" to "Bearer " + token and leaves every other header; no token leaves the headers as they were |
| ToolExecutor.HttpMethod | AgentSynapse/tools/executor/toolExecutor.py:99 | an absent "method" means POST; a given one is upper-cased |
| ToolExecutor.LambdaPayload | AgentSynapse/tools/executor/toolExecutor.py:132-139 | the Lambda event is a dict whose "input" is the tool input |
| ToolExecutor.ExecuteHttpTool | AgentSynapse/tools/executor/toolExecutor.py:92-115 | the token is written into the config's own headers dict before the method is checked; GET, POST and PUT reach the HTTP backend and any other method fails |
| ToolExecutor.ExecuteOutcome | AgentSynapse/tools/executor/toolExecutor.py:32-71 | the outcome of `execute`; its properties are stated by ToolExecutor.Execute, GuardOrder, DispatchFailuresWrapped, YamlTakesPrecedence and NoConfigFails |
| ToolExecutor.Execute | AgentSynapse/tools/executor/toolExecutor.py:32-71 | the outcome is the decision table of the guards and the dispatch; only the HTTP path, and only with a token, changes a headers dict |
| ToolExecutor.GuardOrder | AgentSynapse/tools/executor/toolExecutor.py:39-49 | a missing token on a tool that needs one is exactly the UnauthorizedAccess case; an inactive tool then fails with "Tool <name> is not active", unwrapped |
| ToolExecutor.DispatchFailuresWrapped | AgentSynapse/tools/executor/toolExecutor.py:65-71 | past the guards, every failure is a ToolExecutionError whose message starts "Tool execution failed: " and whose details hold the input |
| ToolExecutor.YamlTakesPrecedence | AgentSynapse/tools/executor/toolExecutor.py:52-55 | a tool with a YAML config never reaches the code backend |
| ToolExecutor.NoConfigFails | AgentSynapse/tools/executor/toolExecutor.py:56-60 | a tool with neither a YAML config nor a code key fails with the wrapped "has no execution config" error |
| ToolExecutor.HttpMethodsAccepted | AgentSynapse/tools/executor/toolExecutor.py:99-112 | any method other than GET, POST and PUT fails as unsupported; an absent method is POST; "get" is accepted as GET |
| Auth.GroupOf | AgentSynapse/api/middleware/authMiddleware.py:35-41 | the role of the groups claim; its properties are stated by GroupPriority |
| Auth.UserAndRole | AgentSynapse/api/middleware/authMiddleware.py:13-55 | `getUserAndRole`; its properties are stated by UserAndRoleOutcome and GroupPriority |
| Auth.Subdomain | AgentSynapse/api/middleware/authMiddleware.py:58-70 | `getSubdomain`; its properties are stated by SubdomainPrecedence |
| Auth.ParseOrigin | AgentSynapse/api/middleware/authMiddleware.py:72-77 | the subdomain of an origin URL; its properties are stated by ParseOriginOfUrl, LabelOfJoin, HostOfPath and StripSchemesOf |
| Auth.ExtractTenantContext | AgentSynapse/api/middleware/authMiddleware.py:94-122 | `extractTenantContext`; its properties are stated by TenantContextFields |
| Auth.RequirePermission | AgentSynapse/api/middleware/authMiddleware.py:125-137 | the permission checker; its properties are stated by RequirePermissionRefuses |
| Auth.GroupPriority | AgentSynapse/api/middleware/authMiddleware.py:35-41 | ADMIN exactly when "Admin" is a group, MODIFY exactly when "Modify" is and "Admin" is not, READONLY likewise below both, "" when none is; order and repetition of the groups do not matter |
| Auth.UserAndRoleOutcome | AgentSynapse/api/middleware/authMiddleware.py:13-55 | the user is known exactly when the Authorization header is non-empty, decodes, and names a user; every failure is a 401; a known user is non-empty and the group is the one the groups give |
| Auth.SubdomainPrecedence | AgentSynapse/api/middleware/authMiddleware.py:64-70 | "origin" wins over "referer" and "gz-site"; a non-empty "referer" wins over "gz-site"; without either, "gz-site" is returned unparsed |
| Auth.LabelOfJoin | AgentSynapse/api/middleware/authMiddleware.py:74-79 | a host of four "."-labels gives its first label; any other number of labels gives "" |
| Auth.HostOfPath | AgentSynapse/api/middleware/authMiddleware.py:73 | the host is everything before the first "/" |
| Auth.StripSchemesOf | AgentSynapse/api/middleware/authMiddleware.py:72 | removing "http://" and then "https://" leaves the rest of a URL whose rest holds no ":" |
| Auth.ParseOriginOfUrl | AgentSynapse/api/middleware/authMiddleware.py:72-77 | "http://a.b.c.d/path" and "https://a.b.c.d/path" both name the subdomain "a" |
| Auth.NonEmpty | AgentSynapse/api/middleware/authMiddleware.py:111 | the roles are exactly the non-empty groups, never more of them than groups |
| Auth.TenantContextFields | AgentSynapse/api/middleware/authMiddleware.py:94-122 | a bad token is reported (401) before a missing subdomain (400); a context names the subdomain as tenant, the token's user, no organisation, the non-empty groups as roles and no permission |
| Auth.RequirePermissionRefuses | AgentSynapse/api/middleware/authMiddleware.py:125-137 | since a context never holds a permission, every request is refused, with a 403 whenever the context itself can be built |
| AgentRegistry.ToDecimal | AgentSynapse/agents/registry/agentRegistry.py:34-44 | `_convertToDecimal`; its properties are stated by ToDecimalDecimalOnly, ToDecimalMirrors, ToDecimalKeeps and ToDecimalIdempotent |
| AgentRegistry.ToDecimalDecimalOnly | AgentSynapse/agents/registry/agentRegistry.py:34-44 | after conversion no float, int or bool is left anywhere inside the value |
| AgentRegistry.ToDecimalMirrors | AgentSynapse/agents/registry/agentRegistry.py:34-44 | conversion keeps every dict key in order, every list length and every number's value |
| AgentRegistry.ToDecimalKeeps | AgentSynapse/agents/registry/agentRegistry.py:34-44 | a value with nothing to convert is returned unchanged |
| AgentRegistry.ToDecimalIdempotent | AgentSynapse/agents/registry/agentRegistry.py:34-44 | converting twice is converting once |
| AgentRegistry.StoreKeysInjective | AgentSynapse/agents/registry/agentRegistry.py:50-51 | "TENANT#<tenant>" and "AGENT#<id>" each name one tenant and one agent |
| AgentRegistry.CacheKeyInjective | AgentSynapse/agents/registry/agentRegistry.py:71 | while tenant ids hold no ":", "<tenant>:<id>" names one tenant and one agent |
| AgentRegistry.SeparatorIndex | AgentSynapse/agents/registry/agentRegistry.py:71 | the first ":" of a key lies within it |
| AgentRegistry.SeparatorAfterTenant | AgentSynapse/agents/registry/agentRegistry.py:71 | in a cache key of a ":"-free tenant the first ":" follows the tenant id |
| AgentRegistry.CacheKeyCollision | AgentSynapse/agents/registry/agentRegistry.py:71 | tenant "a:b" with agent "c" and tenant "a" with agent "b:c" share a cache key |
| AgentRegistry.TextsOfStrings | AgentSynapse/agents/registry/agentRegistry.py:59 | a stored list of strings reads back as those strings |
| AgentRegistry.TruncateInt | AgentSynapse/agents/registry/agentRegistry.py:228 | int() of a whole number gives that number back |
| AgentRegistry.ItemOf | AgentSynapse/agents/registry/agentRegistry.py:49-67 | the item `register` writes; its properties are stated by ItemTexts, ItemValues and ItemRoundTrip |
| AgentRegistry.ItemToConfig | AgentSynapse/agents/registry/agentRegistry.py:219-236 | `_itemToAgentConfig`; its properties are stated by ItemRoundTrip, DecodedType, TextsOfStrings and TruncateInt |
| AgentRegistry.ItemTexts | AgentSynapse/agents/registry/agentRegistry.py:49-67 | the written item holds the agent's id, name, type value, description, prompt and timestamps under their attribute names |
| AgentRegistry.ItemValues | AgentSynapse/agents/registry/agentRegistry.py:49-67 | the written item holds temperature and maxTokens as decimals, the tool ids, isAsync, timeoutSeconds and the converted custom settings |
| AgentRegistry.ItemRoundTrip | AgentSynapse/agents/registry/agentRegistry.py:219-236 | reading back the item register writes gives the agent, with its custom settings converted and the reader's tenant context |
| AgentRegistry.Fetch | AgentSynapse/agents/registry/agentRegistry.py:79-108 | `get` over the cache and the store; its properties are stated by FetchOutcome, FetchRepeat, FetchIsolated, FetchStored and Registry.Get |
| AgentRegistry.FetchOutcome | AgentSynapse/agents/registry/agentRegistry.py:79-108 | every failure is AgentNotFound of the id, happens only on a cache miss and leaves the cache; every success is cached under "<tenant>:<id>" and nothing else changes |
| AgentRegistry.FetchRepeat | AgentSynapse/agents/registry/agentRegistry.py:80-83 | once an answer is cached, asking again gives it back whatever the store now holds |
| AgentRegistry.FetchIsolated | AgentSynapse/agents/registry/agentRegistry.py:80-83 | an entry cached for another ":"-free tenant never changes what a tenant is served |
| AgentRegistry.FetchStored | AgentSynapse/agents/registry/agentRegistry.py:85-102 | with an empty cache, an agent stored as register wrote it is read back as written, converted, with the reader's tenant |
| AgentRegistry.OfType | AgentSynapse/agents/registry/agentRegistry.py:120 | the items whose "type" is the type's value, in order, and no more of them than items |
| AgentRegistry.OfTypeFirst | AgentSynapse/agents/registry/agentRegistry.py:120 | filtering puts the first item of the type in front |
| AgentRegistry.ByTypeFinds | AgentSynapse/agents/registry/agentRegistry.py:110-133 | the first item of the type is returned, decoded, wherever it sits; none is found when there is none; a result is always of the type and carries the caller's tenant |
| AgentRegistry.LimitBeforeFilterMisses | AgentSynapse/agents/registry/agentRegistry.py:118-129 | as written, an agent of the type stored behind an agent of another type is not found, though the intended lookup returns it |
| AgentRegistry.AllPresent | AgentSynapse/agents/registry/agentRegistry.py:153 | the list of decoded configs exists exactly when every element decoded, and then holds them in order |
| AgentRegistry.ConfigsOf | AgentSynapse/agents/registry/agentRegistry.py:153 | every item decoded in order, or nothing exactly when one item fails to decode |
| AgentRegistry.DecodedType | AgentSynapse/agents/registry/agentRegistry.py:219-236 | an item of a type decodes, if at all, to an agent of that type with the caller's tenant |
| AgentRegistry.List | AgentSynapse/agents/registry/agentRegistry.py:135-157 | with a type, only agents of the type; every agent carries the caller's tenant; without a type and with every item decodable, one agent per item |
| AgentRegistry.BuildUpdate | AgentSynapse/agents/registry/agentRegistry.py:162-173 | "SET " followed by "#k = :k, " per field, in order, then "#updatedAt = :updatedAt"; one name and one converted value per field plus updatedAt set to the clock |
| AgentRegistry.ClausesAppend | AgentSynapse/agents/registry/agentRegistry.py:166-167 | the clauses of two runs of updates are the clauses of each, joined |
| AgentRegistry.ClauseInPlace | AgentSynapse/agents/registry/agentRegistry.py:166-167 | each field's clause sits between the clauses of the fields before and after it |
| AgentRegistry.NamesOfResolve | AgentSynapse/agents/registry/agentRegistry.py:166-168 | a "#k" placeholder exists exactly for each updated field and resolves to that field |
| AgentRegistry.ValuesOfKeys | AgentSynapse/agents/registry/agentRegistry.py:166-169 | a ":k" placeholder exists exactly for each updated field |
| AgentRegistry.ValuesOfLast | AgentSynapse/agents/registry/agentRegistry.py:166-169 | a ":k" placeholder holds the converted value of the field's last update |
| AgentRegistry.UpdateRequestResolves | AgentSynapse/agents/registry/agentRegistry.py:162-184 | every name and value placeholder of the request belongs to an updated field or to updatedAt, and updatedAt is always set to the clock reading |
| AgentRegistry.Registry.constructor | AgentSynapse/agents/registry/agentRegistry.py:15-18 | the cache starts empty |
| AgentRegistry.Registry.Register | AgentSynapse/agents/registry/agentRegistry.py:46-77 | a failed write is re-raised and leaves the cache; a successful one caches the agent under "<tenant>:<id>" and returns its id |
| AgentRegistry.Registry.Get | AgentSynapse/agents/registry/agentRegistry.py:79-108 | the answer and the new cache are those of the cached lookup |
| AgentRegistry.Registry.Update | AgentSynapse/agents/registry/agentRegistry.py:159-195 | the request sent is the built SET expression, names and values under the tenant's keys; True exactly when the write succeeds, and only then is the cached config dropped |
| AgentRegistry.Registry.Delete | AgentSynapse/agents/registry/agentRegistry.py:197-217 | True exactly when the delete succeeds, and only then is the cached config dropped |
| AgentRegistry.Registry.ClearCache | AgentSynapse/agents/registry/agentRegistry.py:238-240 | the cache is empty |
| AgentRegistry.RegisteredServedFromCache | AgentSynapse/agents/registry/agentRegistry.py:71 | a registered agent is served from the cache as registered, whatever the store holds, with its own custom settings and tenant context |
| AgentRegistry.EvictedRefetches | AgentSynapse/agents/registry/agentRegistry.py:186-188 | after a successful update or delete, the next get reads the store: the stored config or AgentNotFound |
| Lakehouse.BuildUrl | AgentSynapse/tools/prebuiltTools/lakehouseQueryTool.py:30-33 | `_build_url`; its properties are stated by BuildUrlNormalises, StripPadded and RequestsAuthorized |
| Lakehouse.BuildUrlNormalises | AgentSynapse/tools/prebuiltTools/lakehouseQueryTool.py:30-33 | slashes around the stage and before the path make no difference: the URL is "https://<host>/<stage>/<path>" |
| Lakehouse.StripPadded | AgentSynapse/tools/prebuiltTools/lakehouseQueryTool.py:31 | stripping "/" from both ends of a padded stage gives the stage back |
| Lakehouse.Put | AgentSynapse/tools/prebuiltTools/lakehouseQueryTool.py:112 | after `d[key] = value` the key holds the value and every other key keeps its own |
| Lakehouse.MergeGet | AgentSynapse/tools/prebuiltTools/lakehouseQueryTool.py:110-113 | in `{**d, **e}` a key of `e` takes its value from `e` and any other key keeps the value it has in `d` |
| Lakehouse.ValidateOrder | AgentSynapse/tools/prebuiltTools/lakehouseQueryTool.py:48-69 | the token is checked first, then the host, then the submitQuery's catalog and query; input passes exactly when all three hold |
| Lakehouse.Payload | AgentSynapse/tools/prebuiltTools/lakehouseQueryTool.py:50-148 | "success" comes first and is True exactly for a success; a failure then names its error; a success carries the answer under "response" and a "warnings" list exactly when there is a warning |
| Lakehouse.StartSessionIdPrecedence | AgentSynapse/tools/prebuiltTools/lakehouseQueryTool.py:96-99 | the session id nested under "response" wins when it is truthy; otherwise the top-level one is taken as it is, a falsy or missing one included |
| Lakehouse.Run | AgentSynapse/tools/prebuiltTools/lakehouseQueryTool.py:47-159 | the outcome of the tool and the requests it sends; its properties are stated by Lakehouse.Execute, InvalidSendsNothing, NoSessionNoStart, TryBlockShape, StopIssued, SuccessOnlyFromSubmit and WarningOnlyOnSuccess |
| Lakehouse.Execute | AgentSynapse/tools/prebuiltTools/lakehouseQueryTool.py:47-159 | the returned dict and the requests sent, in order, are those the decision table of validation, start, submit, error handling and stop gives |
| Lakehouse.InvalidSendsNothing | AgentSynapse/tools/prebuiltTools/lakehouseQueryTool.py:48-69 | invalid input is refused with its message before any request is sent |
| Lakehouse.NoSessionNoStart | AgentSynapse/tools/prebuiltTools/lakehouseQueryTool.py:86-91 | without a session id and a start payload the tool refuses and sends nothing, not even a stop |
| Lakehouse.SubmitStepShape | AgentSynapse/tools/prebuiltTools/lakehouseQueryTool.py:110-127 | the submit request is sent after the ones before it and the step succeeds, with the answer, exactly when that request was answered |
| Lakehouse.TryBlockShape | AgentSynapse/tools/prebuiltTools/lakehouseQueryTool.py:85-127 | the try block sends nothing, the start request, the submit request, or start then submit; start only without a supplied session id, submit only with a truthy one; success exactly when the submit was answered |
| Lakehouse.StopBody | AgentSynapse/tools/prebuiltTools/lakehouseQueryTool.py:152 | the stop request names the session unless the overrides name another, and carries every other override unchanged |
| Lakehouse.RequestsAuthorized | AgentSynapse/tools/prebuiltTools/lakehouseQueryTool.py:76-79 | every request goes to the input's host and stage with "Bearer <token>", and the query is submitted only with the truthy session id the try block settled on |
| Lakehouse.StopIssued | AgentSynapse/tools/prebuiltTools/lakehouseQueryTool.py:149-154 | a stop request is sent exactly when the session id is truthy and stopping is on (the default, a supplied session included), and it is then the last request |
| Lakehouse.SuccessOnlyFromSubmit | AgentSynapse/tools/prebuiltTools/lakehouseQueryTool.py:110-127 | the tool succeeds exactly when a submit request was answered, and then returns that answer |
| Lakehouse.WarningOnlyOnSuccess | AgentSynapse/tools/prebuiltTools/lakehouseQueryTool.py:149-159 | a failed stop never changes whether the tool succeeded; a warning is attached exactly when the query succeeded and the stop failed |
| Schemas.ParseAgentType | AgentSynapse/schemas/baseSchemas.py:23-31 | `AgentType(value)` yields the member with that value, and none exactly when no member has it |
| Schemas.ParseAgentTypeValue | AgentSynapse/schemas/baseSchemas.py:23-31 | every member's value parses back to that member |
| Schemas.Headers.constructor | AgentSynapse/schemas/baseSchemas.py:111 | the headers dict of a YAML config holds the given entries |
| Values.DictGetFound | AgentSynapse/tools/prebuiltTools/lakehouseQueryTool.py:55-57 | `d.get(key)` finds a value exactly when some entry has the key, and it is that entry's value |
| Sorting.SortDescSorted | AgentSynapse/memory/memoryManager.py:158-162 | the descending sort orders by the key, given a total preorder |
| Sorting.SortDescStable | AgentSynapse/memory/memoryManager.py:158-162 | the sort is stable: elements with equal keys keep their input order |

## Left out

- Network, storage and foreign code are not executed. They appear only through their answers: the language model, the tool backends, DynamoDB, Redis, OpenSearch, Postgres, S3, Lambda and HTTP. The storage adapters under AgentSynapse/memory/*/ are not part of this model.
- The clock (`datetime.utcnow`), `uuid4` ids and logging are left out. Timestamps and ids are parameters, and nothing is logged.
- Concurrency is left out. The parallel bucket of `_executeParallelTasks` runs one task after another in a chosen order. The `asyncio.Semaphore` ceiling of min(len(parallelTasks), maxParallelAgents) and the interleaving of `gather` are not modelled.
- ExecutionPlanning.CollectWave and ExecutionPlanning.FileWaves: the tasks of a wave are collected and filed in an arbitrary order. This stands for Python's set iteration order, so the order within the parallel list is not determined.
- Floating point is left out. Scores, temperatures and the recency function are exact `real` arithmetic, and `Decimal(str(x))` is the exact number. The comparison against 0.7·maxTokens is exact, where the source compares floats.
- MemoryManager.RecencyScore: the decay threshold is required to be positive. The source divides by it, so a threshold of 0 raises there.
- The `request.state` writes of `extractTenantContext` are left out. Header names are case-insensitive in the web framework; the model takes them already lower-cased.
- `jwt.decode` is left out, including the fact that it does not verify the signature. The claims it yields, or its failure, are an input.
- Validation of versions uses ASCII digits and no trailing newline. Python's `\d` also accepts other Unicode digits, and `$` also matches before a final "\n"; those inputs are not modelled.
- `_decomposeTask`'s model call and `json.loads` are left out. The reply is an input already classified into one of four kinds: not JSON; JSON that is not an object; an object whose "tasks" is truthy but not a list; or an object whose "tasks" is a list, or missing or falsy. Each list entry is either an object, with the keys it has, or some other JSON value.
- `executeStreaming`, `invokeModelAsync`, `invokeModelStream`, the transport of `invokeModel` and the AWS clients are left out. They are I/O around the same helpers.
- The async executor and `consolidateMemories`, `performDecay`, `storeWorkingContext`, `getWorkingContext`, `appendToConversation`, `getConversationHistory` and `clearSession` are left out. They are storage calls or model-driven, not part of the sequential core.
- AgentEngine.ToolNames: a tool call without a name is recorded as the text "None". In the source, `tc["name"]` is None there, and validation of EpisodicMemoryRecord rejects None in `toolsUsed`, so that write raises.
- ExecutionPlanning.TaskReport: `_executeTask` returns the execution's whole `toolCalls` list; the model keeps only its length.
- `storeInteraction` and `storeFact` are modelled only as the records they build. The writes themselves are storage calls; whether each write of `execute` raises is an input.
- Orchestrator.DecomposeTask: an entry object whose fields have the wrong JSON type (a number as "description", a string as "dependencies") cannot be represented. Validation of TaskDecomposition raises ValidationError, a ValueError, for these, so the source gives `[]`, as for a malformed entry.
- The `_executeTask` engine call and `_getOrCreateOrchestrator`'s two registry calls are inputs; only the outcome of each is used. That is the agent `getByType` found, which swallows its own errors, and whether registering the default agent raised. The registry's cache update on that registration is not threaded through `orchestrate`.
- `ToolRegistry.list` is left out. It is a tool-table query filtered on `isActive` and `permission` that decodes every item and returns `[]` on any error. It does not touch `_localCache`, so it lies outside the modelled cache behaviour.
- The registry's `getVersionHistory` and `getNextVersion` wrappers are left out. They forward to the versioning module, whose operations are modelled.
- `_itemToToolDefinition`'s field decoding is left out. Table rows reach the model already decoded, or as a decoding failure.
- `recordVersionRegistration` and `recordVersionDeactivation` are not modelled separately. Each only calls `invalidateCache`, which is modelled.
- ToolExecutor.HttpMethod: upper-casing is ASCII-only. Python's `str.upper` also maps a few other characters onto ASCII letters, so "poſt" (with U+017F) and "poﬆ" (with U+FB06) become "POST" there and are accepted; the model rejects them as unsupported.
- ToolExecutor.HttpMethod: a "method" or "headers" key that is present with the value None is read as an absent key, so the model sends a POST with fresh headers. In the source, `None.upper()` or the header write raises, and the executor reports that as a ToolExecutionError.
- ToolExecutor.Execute: loading and running tool code from S3 with `importlib`, the HTTP client, `raise_for_status` and the Lambda client are backends. Each backend gives a value or an exception text. The `close` of the HTTP client is left out.
- The 30-second HTTP timeouts of the tool executor and of the lakehouse tool are left out.
- Lakehouse.Execute: the model does not cover a host, stage or token of a non-string type, nor a `submitQuery` or `stopSessionPayload` that is not a dict. An explicit null `stopSessionPayload`, for example, makes the stop body `{"sessionId": ..., **overrides}` raise TypeError in the `finally` block, and nothing catches it; the model reads a missing or null value as no overrides. `str()` of a value, as used in the warnings and error texts, is the `show` input.
- AgentRegistry.Registry.Update: the updates are an ordered list of pairs. Python's dict has unique keys; the model also allows repeated keys, and then the last value wins.
- `datetime.isoformat` and `fromisoformat` are left out. Timestamps are stored and read back as the same text.
- AgentRegistry.ItemToConfig: an attribute of an unexpected type is a decoding failure in the model, such as a non-boolean "isAsync" or a numeric string under "maxTokens". Python would accept some of these. A timestamp that `fromisoformat` would refuse is accepted.
- The configuration module, the HTTP routes and `utils/serialization.py` are not part of this model. The defaults the core uses are constants in `Schemas`.

## Findings

| source | as written | input that shows it | evidently intended | confidence | as-written member | corrected member |
|---|---|---|---|---|---|---|
| AgentSynapse/agents/registry/agentRegistry.py:118-129 | `getByType` queries with `Limit=1` and a type filter. DynamoDB applies the limit before the filter, so only the partition's first item is examined. | A tenant whose partition's first item by sort key AGENT#<id> has type "sql_agent", and a later item has type "bi_agent"; `getByType(BI_AGENT)` returns None. | Return the first agent of the requested type, wherever it sits in the partition. | not executed | AgentRegistry.ByTypeAsWritten, AgentRegistry.LimitBeforeFilterMisses | AgentRegistry.ByType, AgentRegistry.ByTypeFinds |
