/** AgentOrchestrator (AgentSynapse/agents/orchestrator/agentOrchestrator.py)
    apart from the wave planner: decomposition of a request into subtasks,
    the plan runner, result synthesis, the default-agent table and the
    top-level `orchestrate` flow. The language model, the agent registry and
    the agent engine are inputs: the decomposition reply, a registry hit,
    the outcome of each subtask by id and the outcome of each engine call. */
module Orchestrator {
  import opened Values
  import opened Schemas
  import opened ExecutionPlanning
  import opened PlanRunner

  // ---------------------------------------------------------------------
  // _createDefaultAgent

  const FallbackPrompt: string := "You are a helpful AI assistant."

  const OrchestratorPrompt: string := "You are an orchestrator agent coordinating multiple specialized agents."
  const SqlPrompt: string := "You are a SQL expert helping with database queries and lakehouse operations."
  const BiPrompt: string := "You are a BI specialist creating dashboards, datasets, and visualizations."
  const EtlPrompt: string := "You are an ETL expert helping with pipelines, logs, and data transformation."
  const AnalyticsPrompt: string := "You are a data analyst providing insights and statistical analysis."

  /** The per-type system prompt table, `systemPrompts`: every type but
      CUSTOM has an entry. */
  function PromptTable(t: AgentType): (r: Option<string>)
    ensures r.None? <==> t == Custom
  {
    match t
    case Orchestrator => Some(OrchestratorPrompt)
    case SqlAgent => Some(SqlPrompt)
    case BiAgent => Some(BiPrompt)
    case EtlAgent => Some(EtlPrompt)
    case AnalyticsAgent => Some(AnalyticsPrompt)
    case Custom => None
  }

  /** `systemPrompts.get(agentType, "You are a helpful AI assistant.")`. */
  function DefaultSystemPrompt(t: AgentType): (p: string)
    ensures t == Custom ==> p == FallbackPrompt
    ensures t != Custom ==> p == PromptTable(t).value
  {
    OrDefault(PromptTable(t), FallbackPrompt)
  }

  /** The agent config created when the registry has none of a type. `id` is
      the fresh identifier the config receives and `now` its creation time. */
  function CreateDefaultAgent(t: AgentType, tenant: TenantContext, id: string, now: string): (a: AgentConfig)
    ensures a.agentType == t && a.tenant == tenant && a.id == id
    ensures a.systemPrompt == DefaultSystemPrompt(t)
    ensures a.temperature == 0.7 && a.maxTokens == 4096 && a.toolIds == []
    ensures !a.isAsync && a.timeoutSeconds == 300 && a.customSettings == []
  {
    AgentConfig(id, "Default " + t.Value(), t, "Auto-created " + t.Value(),
                DefaultSystemPrompt(t), 0.7, 4096, [], tenant, false, 300, [], now, now)
  }

  /** `_getOrCreateOrchestrator`: the registered orchestrator, or a new
      default one, whose registration re-raises the exception of the
      registry's write (`registerFailure`). `getByType` swallows its own
      errors, so `registered` cannot fail. */
  function OrchestratorAgent(registered: Option<AgentConfig>, registerFailure: Option<string>,
                             tenant: TenantContext, newId: string, now: string): (r: Result<AgentConfig, string>)
    ensures r.Err? <==> registered.None? && registerFailure.Some?
    ensures registered.Some? ==> r == Ok(registered.value)
    ensures registered.None? && registerFailure.None? ==>
              && r.value.agentType == Orchestrator && r.value.tenant == tenant && r.value.id == newId
              && r.value.systemPrompt == OrchestratorPrompt && r.value.toolIds == []
  {
    if registered.Some? then Ok(registered.value)
    else if registerFailure.Some? then Err(registerFailure.value)
    else Ok(CreateDefaultAgent(Orchestrator, tenant, newId, now))
  }

  // ---------------------------------------------------------------------
  // _decomposeTask

  /** One entry of the reply's "tasks" list; `None` is a missing key. */
  datatype TaskData = TaskData(
    description: Option<string>,
    agentType: Option<string>,
    dependencies: Option<seq<string>>,
    priority: Option<int>,
    estimatedTokens: Option<int>)

  /** One element of the "tasks" list: a JSON object, whose keys are read,
      or any other JSON value, which `taskData["description"]` cannot index
      (TypeError). */
  datatype TaskEntry = Object(data: TaskData) | NonObject

  /** The model's reply as `json.loads` sees it: not JSON at all; JSON that
      is not an object (`data.get` raises AttributeError); an object whose
      "tasks" is truthy but not a list (a number, `true`, a non-empty string
      or object: iterating it, or indexing the strings it yields, raises
      TypeError); or an object whose "tasks" is a list, or is missing or
      falsy (`None`), which both give `[]`. */
  datatype DecompositionReply = Unparsable | NotAnObject | TasksNotAList | Parsed(tasks: Option<seq<TaskEntry>>)

  /** An entry builds a subtask: both required keys are present and the
      agent type names a member of the enum. */
  predicate WellFormed(d: TaskData)
  {
    d.description.Some? && d.agentType.Some? && ParseAgentType(d.agentType.value).Some?
  }

  predicate Builds(e: TaskEntry)
  {
    e.Object? && WellFormed(e.data)
  }

  function TaskList(reply: DecompositionReply): seq<TaskEntry>
    requires reply.Parsed?
  {
    if reply.tasks.Some? then reply.tasks.value else []
  }

  /** Entry `i` is the first that builds no subtask: the loop leaves there. */
  predicate StopsAt(list: seq<TaskEntry>, i: int)
  {
    0 <= i < |list| && !Builds(list[i]) && forall j :: 0 <= j < i ==> Builds(list[j])
  }

  /** The reply leads to no subtasks: unparsable, no tasks, or the first
      entry that builds none is an object raising KeyError or ValueError. */
  predicate FailsOpen(reply: DecompositionReply)
  {
    || reply.Unparsable?
    || (reply.Parsed? && (TaskList(reply) == [] ||
                          exists i :: 0 <= i < |TaskList(reply)| && StopsAt(TaskList(reply), i) && TaskList(reply)[i].Object?))
  }

  /** The reply raises out of `_decomposeTask`: an exception the handler's
      JSONDecodeError, ValueError and KeyError do not cover. */
  predicate Raises(reply: DecompositionReply)
  {
    || reply.NotAnObject?
    || reply.TasksNotAList?
    || (reply.Parsed? && exists i :: 0 <= i < |TaskList(reply)| && StopsAt(TaskList(reply), i) && TaskList(reply)[i].NonObject?)
  }

  /** The loop leaves at one place only. */
  lemma StopsAtUnique(list: seq<TaskEntry>, i: int, k: int)
    requires StopsAt(list, i) && StopsAt(list, k)
    ensures i == k
  {
  }

  function OrDefault<T>(o: Option<T>, d: T): T
  {
    if o.Some? then o.value else d
  }

  /** Subtask `t` is the one built from entry `d` under the id `id`. */
  predicate Describes(t: Subtask, d: TaskData, id: string)
  {
    && WellFormed(d)
    && t.taskId == id
    && t.description == d.description.value
    && t.assignedAgentType == ParseAgentType(d.agentType.value).value
    && t.dependencies == OrDefault(d.dependencies, [])
    && t.priority == OrDefault(d.priority, 1)
    && t.estimatedTokens == OrDefault(d.estimatedTokens, 1000)
  }

  /** `_decomposeTask` after the model call. `freshId(i)` is the id the i-th
      subtask receives. A reply that is JSON but not an object raises
      AttributeError, and "tasks" that is not a list of objects raises
      TypeError at its first non-object; the handler catches neither. */
  method DecomposeTask(reply: DecompositionReply, freshId: nat -> string) returns (r: Result<seq<Subtask>, string>)
    ensures r.Err? <==> Raises(reply)
    ensures r.Err? ==> r.error == if reply.NotAnObject? then "AttributeError" else "TypeError"
    ensures r.Ok? ==> (r.value == [] <==> FailsOpen(reply))
    ensures r.Ok? && r.value != [] ==>
              && |r.value| == |TaskList(reply)|
              && forall i :: 0 <= i < |r.value| ==>
                   TaskList(reply)[i].Object? && Describes(r.value[i], TaskList(reply)[i].data, freshId(i))
    ensures r.Ok? ==> forall t :: t in r.value ==> fresh(t) && t.status == Idle && t.result == None
  {
    match reply
    case Unparsable =>
      return Ok([]);
    case NotAnObject =>
      return Err("AttributeError");
    case TasksNotAList =>
      return Err("TypeError");
    case Parsed(_) =>
      var list := TaskList(reply);
      if list == [] {
        return Ok([]);
      }
      var tasks: seq<Subtask> := [];
      for i := 0 to |list|
        invariant |tasks| == i
        invariant forall j :: 0 <= j < i ==> Builds(list[j]) && Describes(tasks[j], list[j].data, freshId(j))
        invariant forall t :: t in tasks ==> fresh(t) && t.status == Idle && t.result == None
      {
        if list[i].NonObject? {
          assert StopsAt(list, i);
          forall k | StopsAt(list, k) ensures list[k].NonObject? {
            StopsAtUnique(list, i, k);
          }
          return Err("TypeError");
        }
        var d := list[i].data;
        if !WellFormed(d) {
          assert StopsAt(list, i);
          forall k | StopsAt(list, k) ensures list[k].Object? {
            StopsAtUnique(list, i, k);
          }
          return Ok([]);
        }
        var t := new Subtask(freshId(i), d.description.value, ParseAgentType(d.agentType.value).value,
                             OrDefault(d.dependencies, []), OrDefault(d.priority, 1), OrDefault(d.estimatedTokens, 1000));
        tasks := tasks + [t];
      }
      assert forall k :: !StopsAt(list, k);
      return Ok(tasks);
  }

  // ---------------------------------------------------------------------
  // _synthesizeResults, _executeSingleAgent, orchestrate

  const SynthesisFallback: string := "Unable to synthesize results"

  /** `execution.agentResponse or "Unable to synthesize results"`. */
  function SynthesisText(agentResponse: Option<string>): (s: string)
    ensures s != ""
    ensures agentResponse.Some? && agentResponse.value != "" ==> s == agentResponse.value
    ensures agentResponse.None? || agentResponse.value == "" ==> s == SynthesisFallback
  {
    if agentResponse.Some? && agentResponse.value != "" then agentResponse.value else SynthesisFallback
  }

  /** What the engine is asked: the user's text, or the synthesis prompt
      built from the request and the results. */
  datatype EngineInput = UserText(text: string) | SynthesisOf(request: string, results: map<string, ResultEntry>)

  /** One call of the agent engine: the agent, its input and the depth. */
  datatype EngineCall = EngineCall(agent: AgentConfig, input: EngineInput, depth: nat)

  /** The dict `orchestrate` returns; `plan == None` is the empty dict of the
      single-agent payload. */
  datatype Payload = Payload(
    response: Option<string>,
    tasks: seq<Subtask>,
    results: map<string, ResultEntry>,
    plan: Option<Plan>)

  /** `_executeSingleAgent`: the engine's answer with empty tasks, results
      and plan, or the exception it raised. */
  function SingleAgentPayload(o: Result<Option<string>, string>): (r: Result<Payload, string>)
    ensures r.Ok? <==> o.Ok?
    ensures r.Ok? ==> r.value.response == o.value && r.value.tasks == [] && r.value.results == map[] && r.value.plan == None
  {
    match o
    case Ok(resp) => Ok(Payload(resp, [], map[], None))
    case Err(m) => Err(m)
  }

  /** The ids of the one-task waves, in wave order: what the "sequential"
      bucket holds. */
  ghost function Singles(waves: seq<set<string>>): seq<string>
  {
    if waves == [] then []
    else
      (if |waves[0]| == 1 then var id :| id in waves[0]; [id] else []) + Singles(waves[1..])
  }

  /** Filing duplicate-free waves by size puts exactly the one-task waves,
      in order, into the "sequential" bucket. */
  lemma {:induction false} BucketSingles(waves: seq<seq<string>>)
    requires forall i :: 0 <= i < |waves| ==> Distinct(waves[i])
    ensures Bucket(waves, false) == Singles(Sets(waves))
  {
    if waves != [] {
      var w := waves[0];
      var sets := Sets(waves);
      assert sets[1..] == Sets(waves[1..]);
      BucketSingles(waves[1..]);
      var e := Elems(w);
      if |w| == 1 {
        assert e == {w[0]};
      } else if |w| > 1 {
        TwoInSet(e, w[0], w[1]);
      } else {
        assert e == {};
      }
    }
  }

  lemma TwoInSet(e: set<string>, a: string, b: string)
    requires a in e && b in e && a != b
    ensures |e| >= 2
  {
    var r := e - {a};
    assert e == r + {a};
    assert r * {a} == {};
    assert b in r;
    var q := r - {b};
    assert r == q + {b};
    assert q * {b} == {};
  }

  /** The error of the first id, in order, whose subtask raises. */
  ghost function FirstError(ids: seq<string>, run: string -> Result<TaskReport, string>): Option<string>
  {
    if ids == [] then None
    else if run(ids[0]).Err? then Some(run(ids[0]).error)
    else FirstError(ids[1..], run)
  }

  /** `FirstRaise` on the tasks finds the error `FirstError` finds on their ids. */
  lemma {:induction false} FirstErrorOfRaise(tasks: seq<Subtask>, run: string -> Result<TaskReport, string>)
    ensures var k := FirstRaise(tasks, run);
      && (k < |tasks| <==> FirstError(Ids(tasks), run).Some?)
      && (k < |tasks| ==> FirstError(Ids(tasks), run).value == run(tasks[k].taskId).error)
  {
    if tasks != [] {
      assert Ids(tasks)[1..] == Ids(tasks[1..]);
      FirstErrorOfRaise(tasks[1..], run);
    }
  }

  /** What planning and running the subtasks yields: the error of the first
      subtask of a one-task wave, in wave order, that raises, or else an
      entry for every scheduled subtask, each from its own outcome. A
      subtask of a larger wave that raises does not end the run. */
  ghost function RunOutcome(tasks: seq<Subtask>, run: string -> Result<TaskReport, string>)
    : Result<map<string, ResultEntry>, string>
  {
    var failure := FirstError(Singles(Layers(TaskMap(tasks), TaskIds(tasks), {})), run);
    if failure.Some? then Err(failure.value)
    else Ok(map id | id in Scheduled(tasks) :: Entry(run(id)))
  }

  /** `_buildExecutionPlan` followed by `_executeParallelTasks`: the outcome
      is the reference outcome of the subtasks, and the plan files every
      scheduled subtask once, the one-task waves in "sequential". */
  method PlanAndRun(tasks: seq<Subtask>, run: string -> Result<TaskReport, string>, maxParallelAgents: nat)
      returns (plan: Plan, outcome: Result<map<string, ResultEntry>, string>)
    modifies set t | t in tasks
    ensures outcome == RunOutcome(tasks, run)
    ensures outcome.Ok? ==> outcome.value.Keys == Scheduled(tasks)
    ensures outcome.Ok? ==> forall id :: id in outcome.value ==> outcome.value[id] == Entry(run(id))
    ensures Ids(plan.sequential) == Singles(Layers(TaskMap(tasks), TaskIds(tasks), {}))
    ensures Elems(Ids(plan.sequential) + Ids(plan.parallel)) == Scheduled(tasks)
  {
    var waves;
    plan, waves := BuildExecutionPlan(tasks);
    BucketSingles(waves);
    IdsAppend(plan.sequential, plan.parallel);
    UniqueIdsOfDistinct(plan.sequential + plan.parallel);
    FirstErrorOfRaise(plan.sequential, run);
    var limit;
    outcome, limit := ExecuteParallelTasks(plan, run, maxParallelAgents);
    if outcome.Ok? {
      RecordedPlan(plan, run);
    }
    RunOutcomeIs(tasks, run, outcome);
  }

  /** An outcome that fails with the first error of the one-task waves, or
      else holds the entry of every scheduled subtask, is the reference one. */
  lemma RunOutcomeIs(tasks: seq<Subtask>, run: string -> Result<TaskReport, string>,
                     o: Result<map<string, ResultEntry>, string>)
    requires var failure := FirstError(Singles(Layers(TaskMap(tasks), TaskIds(tasks), {})), run);
      && (failure.Some? ==> o == Err(failure.value))
      && (failure.None? ==> o.Ok? && o.value.Keys == Scheduled(tasks)
                            && forall id :: id in o.value ==> o.value[id] == Entry(run(id)))
    ensures o == RunOutcome(tasks, run)
  {
    if o.Ok? {
      assert o.value == map id | id in Scheduled(tasks) :: Entry(run(id));
    }
  }

  /** `orchestrate`. `registered` is the registry's orchestrator agent, if
      any; without one a default agent is registered under `newAgentId`,
      stamped `now`, and `registerFailure` is the exception its write
      raises, if any. `engine(call)` is what the agent engine returns as
      `agentResponse` or raises. With no subtasks the request goes to the
      orchestrator agent alone; otherwise the subtasks (`subtasks`) are
      planned, run and synthesised, and the first exception ends the call. */
  method Orchestrate(userRequest: string, tenant: TenantContext,
                     registered: Option<AgentConfig>, registerFailure: Option<string>, newAgentId: string, now: string,
                     reply: DecompositionReply, freshId: nat -> string,
                     run: string -> Result<TaskReport, string>,
                     engine: EngineCall -> Result<Option<string>, string>,
                     maxParallelAgents: nat)
      returns (r: Result<Payload, string>, ghost subtasks: seq<Subtask>)
    ensures registered.None? && registerFailure.Some? ==> r == Err(registerFailure.value) && subtasks == []
    ensures var agent := OrchestratorAgent(registered, registerFailure, tenant, newAgentId, now);
      agent.Ok? ==>
        && (Raises(reply) ==> r.Err? && r.error == if reply.NotAnObject? then "AttributeError" else "TypeError")
        && (FailsOpen(reply) ==> r == SingleAgentPayload(engine(EngineCall(agent.value, UserText(userRequest), 0))))
        && (reply.Parsed? && !FailsOpen(reply) && !Raises(reply) ==>
              && |subtasks| == |TaskList(reply)|
              && (forall i :: 0 <= i < |subtasks| ==>
                    TaskList(reply)[i].Object? && Describes(subtasks[i], TaskList(reply)[i].data, freshId(i)))
              && var outcome := RunOutcome(subtasks, run);
              && (outcome.Err? ==> r == Err(outcome.error))
              && (outcome.Ok? ==>
                    var synthesis := engine(EngineCall(agent.value, SynthesisOf(userRequest, outcome.value), 1));
                    && (synthesis.Err? ==> r == Err(synthesis.error))
                    && (synthesis.Ok? ==>
                          && r.Ok?
                          && r.value.response == Some(SynthesisText(synthesis.value))
                          && r.value.tasks == subtasks
                          && r.value.results == outcome.value
                          && r.value.plan.Some?
                          && Elems(Ids(r.value.plan.value.sequential) + Ids(r.value.plan.value.parallel))
                             == Scheduled(subtasks))))
  {
    subtasks := [];
    var found := OrchestratorAgent(registered, registerFailure, tenant, newAgentId, now);
    if found.Err? {
      return Err(found.error), subtasks;
    }
    var agent := found.value;
    var decomposed := DecomposeTask(reply, freshId);
    if decomposed.Err? {
      return Err(decomposed.error), subtasks;
    }
    var tasks := decomposed.value;
    subtasks := tasks;
    assert forall t :: t in tasks ==> fresh(t);
    if tasks == [] {
      return SingleAgentPayload(engine(EngineCall(agent, UserText(userRequest), 0))), subtasks;
    }
    var plan, outcome := PlanAndRun(tasks, run, maxParallelAgents);
    if outcome.Err? {
      return Err(outcome.error), subtasks;
    }
    var results := outcome.value;
    var synthesis := engine(EngineCall(agent, SynthesisOf(userRequest, results), 1));
    if synthesis.Err? {
      return Err(synthesis.error), subtasks;
    }
    return Ok(Payload(Some(SynthesisText(synthesis.value)), tasks, results, Some(plan))), subtasks;
  }
}
