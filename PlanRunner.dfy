/** The plan runner of AgentOrchestrator (`_executeParallelTasks` in
    AgentSynapse/agents/orchestrator/agentOrchestrator.py), with the
    parallel bucket sequentialised. What `_executeTask` returns or raises for
    a subtask is an input, keyed by the subtask's id. */
module PlanRunner {
  import opened Values
  import opened Schemas
  import opened ExecutionPlanning

  /** A `results` value: the dict `_executeTask` returned, or the
      `{"error": str(e)}` of a parallel task that raised. */
  datatype ResultEntry = Report(report: TaskReport) | ErrorEntry(error: string)

  function Entry(o: Result<TaskReport, string>): ResultEntry
  {
    match o
    case Ok(rep) => Report(rep)
    case Err(m) => ErrorEntry(m)
  }

  /** The status a parallel task ends in. */
  function StatusAfter(o: Result<TaskReport, string>): AgentStatus
  {
    if o.Ok? then Completed else Failed
  }

  /** The result a parallel task ends with: its report on success, the one it
      had before on an exception. */
  function ResultAfter(o: Result<TaskReport, string>, before: Option<TaskReport>): Option<TaskReport>
  {
    if o.Ok? then Some(o.value) else before
  }

  function Min(a: nat, b: nat): nat
  {
    if a <= b then a else b
  }

  /** The index of the first task whose run raises, or `|tasks|` when none does. */
  function FirstRaise(tasks: seq<Subtask>, run: string -> Result<TaskReport, string>): (k: nat)
    ensures k <= |tasks|
    ensures forall j :: 0 <= j < k ==> run(tasks[j].taskId).Ok?
    ensures k < |tasks| ==> run(tasks[k].taskId).Err?
  {
    if tasks == [] || run(tasks[0].taskId).Err? then 0 else 1 + FirstRaise(tasks[1..], run)
  }

  /** No two positions hold tasks with the same id (and so no task twice). */
  predicate UniqueIds(tasks: seq<Subtask>)
  {
    forall a, b :: 0 <= a < b < |tasks| ==> tasks[a].taskId != tasks[b].taskId
  }

  lemma UniqueIdsOfDistinct(tasks: seq<Subtask>)
    requires Distinct(Ids(tasks))
    ensures UniqueIds(tasks)
  {
    var ids := Ids(tasks);
    forall a, b | 0 <= a < b < |tasks| ensures tasks[a].taskId != tasks[b].taskId {
      assert ids[a] != ids[b];
    }
  }

  /** The `results` dict after storing, for each task of `tasks` in turn,
      the entry its outcome gives, on top of `acc`. */
  function Recorded(acc: map<string, ResultEntry>, tasks: seq<Subtask>,
                    run: string -> Result<TaskReport, string>): map<string, ResultEntry>
    decreases |tasks|
  {
    if tasks == [] then acc
    else
      var t := tasks[|tasks| - 1];
      Recorded(acc, tasks[..|tasks| - 1], run)[t.taskId := Entry(run(t.taskId))]
  }

  /** Recording adds exactly the tasks' ids to the keys of `acc`. */
  lemma {:induction false} RecordedKeys(acc: map<string, ResultEntry>, tasks: seq<Subtask>,
                                        run: string -> Result<TaskReport, string>)
    ensures Recorded(acc, tasks, run).Keys == acc.Keys + Elems(Ids(tasks))
    decreases |tasks|
  {
    if tasks != [] {
      var front, t := tasks[..|tasks| - 1], tasks[|tasks| - 1];
      RecordedKeys(acc, front, run);
      assert tasks == front + [t];
      IdsAppend(front, [t]);
      assert Elems(Ids(tasks)) == Elems(Ids(front)) + {t.taskId};
    }
  }

  /** Each recorded task's id maps to the entry of its own outcome; every
      other entry of `acc` is kept. */
  lemma {:induction false} RecordedValues(acc: map<string, ResultEntry>, tasks: seq<Subtask>,
                                          run: string -> Result<TaskReport, string>, id: string)
    requires id in acc || id in Ids(tasks)
    ensures id in Recorded(acc, tasks, run)
    ensures Recorded(acc, tasks, run)[id] == if id in Ids(tasks) then Entry(run(id)) else acc[id]
    decreases |tasks|
  {
    if tasks != [] {
      var front, t := tasks[..|tasks| - 1], tasks[|tasks| - 1];
      assert tasks == front + [t];
      IdsAppend(front, [t]);
      if id != t.taskId {
        RecordedValues(acc, front, run, id);
      }
    }
  }

  /** The results of a plan that ran through hold exactly its tasks' ids,
      each with the entry of its own outcome. */
  lemma RecordedPlan(plan: Plan, run: string -> Result<TaskReport, string>)
    ensures var results := Recorded(Recorded(map[], plan.sequential, run), plan.parallel, run);
      && results.Keys == Elems(Ids(plan.sequential) + Ids(plan.parallel))
      && forall id :: id in results ==> results[id] == Entry(run(id))
  {
    var S, P := plan.sequential, plan.parallel;
    RecordedKeys(map[], S, run);
    RecordedKeys(Recorded(map[], S, run), P, run);
    forall id | id in Recorded(Recorded(map[], S, run), P, run)
      ensures Recorded(Recorded(map[], S, run), P, run)[id] == Entry(run(id))
    {
      RecordedValues(Recorded(map[], S, run), P, run, id);
      if id !in Ids(P) {
        RecordedValues(map[], S, run, id);
      }
    }
    assert Elems(Ids(plan.sequential) + Ids(plan.parallel)) == Elems(Ids(plan.sequential)) + Elems(Ids(plan.parallel));
  }

  lemma SplitUnique(S: seq<Subtask>, P: seq<Subtask>)
    requires UniqueIds(S + P)
    ensures UniqueIds(S) && UniqueIds(P)
    ensures forall j :: 0 <= j < |S| ==> S[j] !in P
    ensures forall j :: 0 <= j < |P| ==> P[j] !in S
  {
    forall a, b | 0 <= a < b < |S| ensures S[a].taskId != S[b].taskId {
      assert (S + P)[a] == S[a] && (S + P)[b] == S[b];
    }
    forall a, b | 0 <= a < b < |P| ensures P[a].taskId != P[b].taskId {
      assert (S + P)[|S| + a] == P[a] && (S + P)[|S| + b] == P[b];
    }
    forall a, b | 0 <= a < |S| && 0 <= b < |P| ensures S[a] != P[b] {
      assert (S + P)[a] == S[a] && (S + P)[|S| + b] == P[b];
    }
  }

  /** The `for task in executionPlan["sequential"]` loop: each task runs in
      turn and is COMPLETED with its result; the first that raises ends the
      loop with its error and leaves itself and the rest untouched. */
  method RunSequential(S: seq<Subtask>, run: string -> Result<TaskReport, string>)
      returns (outcome: Result<map<string, ResultEntry>, string>)
    requires UniqueIds(S)
    modifies S
    ensures var k := FirstRaise(S, run);
      && (outcome.Ok? <==> k == |S|)
      && (outcome.Ok? ==> outcome.value == Recorded(map[], S, run))
      && (outcome.Err? ==> outcome.error == run(S[k].taskId).error)
      && (forall j :: 0 <= j < k ==> S[j].status == Completed && S[j].result == Some(run(S[j].taskId).value))
      && (forall j :: k <= j < |S| ==> S[j].status == old(S[j].status) && S[j].result == old(S[j].result))
  {
    var results: map<string, ResultEntry> := map[];
    var i := 0;
    while i < |S| && run(S[i].taskId).Ok?
      invariant 0 <= i <= |S|
      invariant results == Recorded(map[], S[..i], run)
      invariant forall j :: 0 <= j < i ==> run(S[j].taskId).Ok?
      invariant forall j :: 0 <= j < i ==> S[j].status == Completed && S[j].result == Some(run(S[j].taskId).value)
      invariant forall j :: i <= j < |S| ==> S[j].status == old(S[j].status) && S[j].result == old(S[j].result)
    {
      var t := S[i];
      var report := run(t.taskId).value;
      assert S[..i + 1][..i] == S[..i];
      results := results[t.taskId := Report(report)];
      t.result := Some(report);
      t.status := Completed;
      i := i + 1;
    }
    if i < |S| {
      outcome := Err(run(S[i].taskId).error);
    } else {
      assert S[..i] == S;
      outcome := Ok(results);
    }
  }

  /** The parallel bucket, one task after the other: a task that raises
      gets an error entry and FAILED, the others their result and COMPLETED. */
  method RunParallel(P: seq<Subtask>, run: string -> Result<TaskReport, string>, results0: map<string, ResultEntry>)
      returns (results: map<string, ResultEntry>)
    requires UniqueIds(P)
    modifies P
    ensures results == Recorded(results0, P, run)
    ensures forall j :: 0 <= j < |P| ==>
      && P[j].status == StatusAfter(run(P[j].taskId))
      && P[j].result == ResultAfter(run(P[j].taskId), old(P[j].result))
  {
    results := results0;
    var i := 0;
    while i < |P|
      invariant 0 <= i <= |P|
      invariant results == Recorded(results0, P[..i], run)
      invariant forall j :: 0 <= j < i ==>
        && P[j].status == StatusAfter(run(P[j].taskId))
        && P[j].result == ResultAfter(run(P[j].taskId), old(P[j].result))
      invariant forall j :: i <= j < |P| ==> P[j].status == old(P[j].status) && P[j].result == old(P[j].result)
    {
      var t := P[i];
      var o := run(t.taskId);
      assert P[..i + 1][..i] == P[..i];
      if o.Err? {
        results := results[t.taskId := ErrorEntry(o.error)];
        t.status := Failed;
      } else {
        results := results[t.taskId := Report(o.value)];
        t.result := Some(o.value);
        t.status := Completed;
      }
      i := i + 1;
    }
    assert P[..i] == P;
  }

  /** `_executeParallelTasks`, with the parallel bucket run one task after
      the other. `run(id)` is what `_executeTask` returns (`Ok`) or raises
      (`Err`) for the subtask `id`. Sequential tasks run first, in order, and
      the first one that raises aborts the whole call; a parallel task that
      raises yields an error entry and FAILED. `limit` is the semaphore's
      size. */
  method ExecuteParallelTasks(plan: Plan, run: string -> Result<TaskReport, string>, maxParallelAgents: nat)
      returns (outcome: Result<map<string, ResultEntry>, string>, limit: nat)
    requires UniqueIds(plan.sequential + plan.parallel)
    modifies plan.sequential, plan.parallel
    ensures var S, P, k := plan.sequential, plan.parallel, FirstRaise(plan.sequential, run);
      && (outcome.Ok? <==> k == |S|)
      && (outcome.Ok? ==> outcome.value == Recorded(Recorded(map[], S, run), P, run))
      && (outcome.Ok? ==> limit == if P == [] then 0 else Min(|P|, maxParallelAgents))
      && (outcome.Err? ==> outcome.error == run(S[k].taskId).error)
      && (forall j :: 0 <= j < k ==> S[j].status == Completed && S[j].result == Some(run(S[j].taskId).value))
      && (forall j :: k <= j < |S| ==> S[j].status == old(S[j].status) && S[j].result == old(S[j].result))
      && (outcome.Ok? ==> forall j :: 0 <= j < |P| ==>
            && P[j].status == StatusAfter(run(P[j].taskId))
            && P[j].result == ResultAfter(run(P[j].taskId), old(P[j].result)))
      && (outcome.Err? ==> forall j :: 0 <= j < |P| ==> P[j].status == old(P[j].status) && P[j].result == old(P[j].result))
  {
    var S, P := plan.sequential, plan.parallel;
    SplitUnique(S, P);
    outcome := RunSequential(S, run);
    limit := 0;
    if outcome.Ok? && |P| > 0 {
      limit := Min(|P|, maxParallelAgents);
      var results := RunParallel(P, run, outcome.value);
      outcome := Ok(results);
    }
  }
}
