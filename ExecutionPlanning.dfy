/** The wave planner of AgentOrchestrator (`_buildExecutionPlan`): Kahn-style
    layering of the decomposed subtasks by their dependency ids. A pass collects
    every remaining task whose dependencies are all completed; the pass's tasks
    form one wave and only then become completed. A pass that collects nothing
    ends planning, leaving the tasks on a cycle or with an unknown dependency
    unscheduled. Waves of one task go to the "sequential" bucket, larger waves
    to the "parallel" bucket, each bucket keeping wave order. */
module ExecutionPlanning {
  import opened Values
  import opened Schemas

  /** A decomposed subtask (`TaskDecomposition`). The executor updates its
      status and result in place. */
  class Subtask {
    const taskId: string
    const description: string
    const assignedAgentType: AgentType
    const dependencies: seq<string>
    const priority: int
    const estimatedTokens: int
    var status: AgentStatus
    var result: Option<TaskReport>

    constructor (taskId: string, description: string, agentType: AgentType,
                 dependencies: seq<string>, priority: int, estimatedTokens: int)
      ensures this.taskId == taskId && this.description == description
      ensures this.assignedAgentType == agentType && this.dependencies == dependencies
      ensures this.priority == priority && this.estimatedTokens == estimatedTokens
      ensures status == Idle && result == None
    {
      this.taskId := taskId;
      this.description := description;
      this.assignedAgentType := agentType;
      this.dependencies := dependencies;
      this.priority := priority;
      this.estimatedTokens := estimatedTokens;
      status := Idle;
      result := None;
    }
  }

  /** What `_executeTask` returns for a subtask: the agent's response, the
      number of tool calls it made and its final status. */
  datatype TaskReport = TaskReport(response: Option<string>, toolCallCount: nat, status: AgentStatus)

  /** The plan: the two buckets. */
  datatype Plan = Plan(sequential: seq<Subtask>, parallel: seq<Subtask>)

  function Ids(tasks: seq<Subtask>): (ids: seq<string>)
    ensures |ids| == |tasks|
    ensures forall i :: 0 <= i < |tasks| ==> ids[i] == tasks[i].taskId
  {
    if tasks == [] then [] else [tasks[0].taskId] + Ids(tasks[1..])
  }

  function Elems(s: seq<string>): set<string>
  {
    set x | x in s
  }

  predicate Distinct(s: seq<string>)
  {
    forall i, j :: 0 <= i < j < |s| ==> s[i] != s[j]
  }

  /** The ids of the task list. */
  function TaskIds(tasks: seq<Subtask>): set<string>
  {
    set t | t in tasks :: t.taskId
  }

  /** `{task.taskId: task for task in tasks}`: a later task with the same id
      replaces an earlier one. */
  function TaskMap(tasks: seq<Subtask>): (m: map<string, Subtask>)
    ensures m.Keys == TaskIds(tasks)
    ensures forall id :: id in m ==> m[id] in tasks && m[id].taskId == id
  {
    if tasks == [] then map[]
    else
      var last := tasks[|tasks| - 1];
      var m := TaskMap(tasks[..|tasks| - 1]);
      assert tasks == tasks[..|tasks| - 1] + [last];
      m[last.taskId := last]
  }

  /** `all(dep in completed for dep in task.dependencies)`. */
  predicate Ready(t: Subtask, completed: set<string>)
  {
    forall d :: d in t.dependencies ==> d in completed
  }

  /** The tasks one pass collects. */
  function ReadySet(tm: map<string, Subtask>, remaining: set<string>, completed: set<string>): set<string>
    requires remaining <= tm.Keys
  {
    set id | id in remaining && Ready(tm[id], completed)
  }

  /** The waves, as sets: the reference definition of the layering. */
  ghost function Layers(tm: map<string, Subtask>, remaining: set<string>, completed: set<string>): seq<set<string>>
    requires remaining <= tm.Keys
    decreases |remaining|
  {
    var ready := ReadySet(tm, remaining, completed);
    if ready == {} then []
    else
      assert |remaining - ready| < |remaining| by {
        var x :| x in ready;
        assert remaining - ready <= remaining - {x};
      }
      [ready] + Layers(tm, remaining - ready, completed + ready)
  }

  lemma LayersUnfold(tm: map<string, Subtask>, remaining: set<string>, completed: set<string>)
    requires remaining <= tm.Keys
    ensures var ready := ReadySet(tm, remaining, completed);
      Layers(tm, remaining, completed)
        == if ready == {} then [] else [ready] + Layers(tm, remaining - ready, completed + ready)
  {
  }

  /** One more wave moves from the rest of the layering to the waves built. */
  lemma LayerStep(tm: map<string, Subtask>, remaining: set<string>, completed: set<string>,
                  built: seq<set<string>>, ready: set<string>)
    requires remaining <= tm.Keys
    requires ready == ReadySet(tm, remaining, completed) && ready != {}
    ensures built + Layers(tm, remaining, completed)
         == (built + [ready]) + Layers(tm, remaining - ready, completed + ready)
  {
    LayersUnfold(tm, remaining, completed);
  }

  ghost function Sets(waves: seq<seq<string>>): (r: seq<set<string>>)
    ensures |r| == |waves|
    ensures forall i :: 0 <= i < |waves| ==> r[i] == Elems(waves[i])
  {
    if waves == [] then [] else [Elems(waves[0])] + Sets(waves[1..])
  }

  ghost function Union(ls: seq<set<string>>): set<string>
  {
    if ls == [] then {} else ls[0] + Union(ls[1..])
  }

  /** The concatenation of the waves of more than one task (`parallel`) or
      of exactly one task (`sequential`), in wave order. */
  function Bucket(waves: seq<seq<string>>, parallel: bool): seq<string>
  {
    if waves == [] then []
    else (if (|waves[0]| > 1) == parallel then waves[0] else []) + Bucket(waves[1..], parallel)
  }

  /** `_buildExecutionPlan`. */
  method BuildExecutionPlan(tasks: seq<Subtask>) returns (plan: Plan, waves: seq<seq<string>>)
    ensures Sets(waves) == Layers(TaskMap(tasks), TaskIds(tasks), {})
    ensures forall i :: 0 <= i < |waves| ==> Distinct(waves[i])
    ensures Ids(plan.sequential) == Bucket(waves, false)
    ensures Ids(plan.parallel) == Bucket(waves, true)
    ensures forall t :: t in plan.sequential || t in plan.parallel ==>
              t.taskId in TaskMap(tasks) && t == TaskMap(tasks)[t.taskId]
    // every scheduled task lands in exactly one bucket, exactly once
    ensures Distinct(Ids(plan.sequential) + Ids(plan.parallel))
    ensures Elems(Ids(plan.sequential) + Ids(plan.parallel)) == Scheduled(tasks)
  {
    var taskMap := TaskMap(tasks);
    waves := LayerTasks(taskMap);
    plan := FileWaves(taskMap, waves);
    LayersDisjoint(taskMap, taskMap.Keys, {});
    BucketsPartition(waves);
  }

  /** The `while remaining` loop: one wave per pass until a pass collects nothing. */
  method LayerTasks(taskMap: map<string, Subtask>) returns (waves: seq<seq<string>>)
    ensures Sets(waves) == Layers(taskMap, taskMap.Keys, {})
    ensures forall i :: 0 <= i < |waves| ==> Distinct(waves[i])
    ensures forall i :: 0 <= i < |waves| ==> Elems(waves[i]) <= taskMap.Keys
  {
    var completed: set<string> := {};
    var remaining := taskMap.Keys;
    waves := [];
    while remaining != {}
      invariant remaining <= taskMap.Keys
      invariant Sets(waves) + Layers(taskMap, remaining, completed) == Layers(taskMap, taskMap.Keys, {})
      invariant forall i :: 0 <= i < |waves| ==> Distinct(waves[i])
      decreases |remaining|
    {
      var currentWave, remaining' := CollectWave(taskMap, remaining, completed);
      if currentWave == [] {
        break;
      }
      LayerStep(taskMap, remaining, completed, Sets(waves), Elems(currentWave));
      SetsAppend(waves, currentWave);
      waves := waves + [currentWave];
      completed := completed + Elems(currentWave);
      remaining := remaining';
    }
    // the pass that collected nothing ends the layering
    LayersUnfold(taskMap, remaining, completed);
    assert Sets(waves) + [] == Sets(waves);
    LayersWithin(taskMap, taskMap.Keys, {});
  }

  /** One pass, `for taskId in list(remaining)`: every ready task joins the
      wave and leaves `remaining`. The visiting order is that of set iteration. */
  method CollectWave(taskMap: map<string, Subtask>, remaining: set<string>, completed: set<string>)
      returns (wave: seq<string>, remaining': set<string>)
    requires remaining <= taskMap.Keys
    ensures Elems(wave) == ReadySet(taskMap, remaining, completed)
    ensures Distinct(wave)
    ensures remaining' == remaining - Elems(wave)
    ensures wave != [] ==> |remaining'| < |remaining|
  {
    wave := [];
    remaining' := remaining;
    var pending := remaining;
    while pending != {}
      invariant pending <= remaining && remaining' <= remaining
      invariant Elems(wave) == set id | id in remaining - pending && Ready(taskMap[id], completed)
      invariant Distinct(wave)
      invariant remaining' == remaining - Elems(wave)
      decreases |pending|
    {
      var id :| id in pending;
      if Ready(taskMap[id], completed) {
        assert id !in Elems(wave);
        assert Elems(wave + [id]) == Elems(wave) + {id};
        wave := wave + [id];
        remaining' := remaining' - {id};
      }
      pending := pending - {id};
    }
    if wave != [] {
      assert wave[0] in Elems(wave);
      assert remaining' <= remaining - {wave[0]};
    }
  }

  /** The `for wave in waves` loop: file each wave into its bucket. */
  method FileWaves(taskMap: map<string, Subtask>, waves: seq<seq<string>>) returns (plan: Plan)
    requires Keyed(taskMap)
    requires forall i :: 0 <= i < |waves| ==> Elems(waves[i]) <= taskMap.Keys
    ensures Ids(plan.sequential) == Bucket(waves, false)
    ensures Ids(plan.parallel) == Bucket(waves, true)
    ensures forall t :: t in plan.sequential || t in plan.parallel ==>
              t.taskId in taskMap && t == taskMap[t.taskId]
  {
    plan := Plan([], []);
    for i := 0 to |waves|
      invariant Ids(plan.sequential) == Bucket(waves[..i], false)
      invariant Ids(plan.parallel) == Bucket(waves[..i], true)
      invariant forall t :: t in plan.sequential || t in plan.parallel ==>
                  t.taskId in taskMap && t == taskMap[t.taskId]
    {
      var wave := Lookup(taskMap, waves[i]);
      BucketAppend(waves[..i], waves[i], false);
      BucketAppend(waves[..i], waves[i], true);
      assert waves[..i + 1] == waves[..i] + [waves[i]];
      if |waves[i]| > 1 {
        IdsAppend(plan.parallel, wave);
        plan := plan.(parallel := plan.parallel + wave);
      } else {
        IdsAppend(plan.sequential, wave);
        plan := plan.(sequential := plan.sequential + wave);
      }
    }
    assert waves[..|waves|] == waves;
  }

  /** Every task is filed under its own id. */
  predicate Keyed(tm: map<string, Subtask>)
  {
    forall id :: id in tm ==> tm[id].taskId == id
  }

  /** The tasks of a wave, looked up by id. */
  function Lookup(tm: map<string, Subtask>, wave: seq<string>): (r: seq<Subtask>)
    requires Keyed(tm)
    requires Elems(wave) <= tm.Keys
    ensures Ids(r) == wave
    ensures forall t :: t in r ==> t.taskId in tm && t == tm[t.taskId]
  {
    if wave == [] then []
    else
      assert wave[0] in Elems(wave);
      assert Elems(wave[1..]) <= Elems(wave);
      var r := [tm[wave[0]]] + Lookup(tm, wave[1..]);
      assert r[1..] == Lookup(tm, wave[1..]);
      assert [wave[0]] + wave[1..] == wave;
      r
  }

  lemma {:induction false} IdsAppend(a: seq<Subtask>, b: seq<Subtask>)
    ensures Ids(a + b) == Ids(a) + Ids(b)
  {
    if a != [] {
      assert (a + b)[1..] == a[1..] + b;
      IdsAppend(a[1..], b);
    }
  }

  lemma {:induction false} SetsAppend(waves: seq<seq<string>>, w: seq<string>)
    ensures Sets(waves + [w]) == Sets(waves) + [Elems(w)]
  {
  }

  lemma {:induction false} BucketAppend(waves: seq<seq<string>>, w: seq<string>, parallel: bool)
    ensures Bucket(waves + [w], parallel) == Bucket(waves, parallel) + (if (|w| > 1) == parallel then w else [])
  {
    if waves == [] {
      assert [w][1..] == [];
    } else {
      assert (waves + [w])[1..] == waves[1..] + [w];
      BucketAppend(waves[1..], w, parallel);
    }
  }

  // ---------------------------------------------------------------------
  // Properties of the layering

  lemma {:induction false} UnionMember(ls: seq<set<string>>, x: string)
    ensures x in Union(ls) <==> exists j :: 0 <= j < |ls| && x in ls[j]
  {
    if ls != [] {
      UnionMember(ls[1..], x);
      if x in Union(ls[1..]) {
        var j :| 0 <= j < |ls[1..]| && x in ls[1..][j];
        assert x in ls[j + 1];
      }
      forall j | 0 < j < |ls| && x in ls[j] ensures x in Union(ls[1..]) {
        assert ls[j] == ls[1..][j - 1];
      }
    }
  }

  /** One pass takes at least one task out of `remaining`. */
  lemma ReadyShrinks(tm: map<string, Subtask>, remaining: set<string>, completed: set<string>)
    requires remaining <= tm.Keys
    requires ReadySet(tm, remaining, completed) != {}
    ensures |remaining - ReadySet(tm, remaining, completed)| < |remaining|
  {
    var ready := ReadySet(tm, remaining, completed);
    var x :| x in ready;
    assert remaining - ready <= remaining - {x};
  }

  /** Every wave is non-empty and drawn from `remaining`. */
  lemma {:induction false} LayersWithin(tm: map<string, Subtask>, remaining: set<string>, completed: set<string>)
    requires remaining <= tm.Keys
    ensures var L := Layers(tm, remaining, completed);
      && (forall i :: 0 <= i < |L| ==> L[i] != {} && L[i] <= remaining)
      && Union(L) <= remaining
    decreases |remaining|
  {
    var ready := ReadySet(tm, remaining, completed);
    LayersUnfold(tm, remaining, completed);
    if ready != {} {
      ReadyShrinks(tm, remaining, completed);
      LayersWithin(tm, remaining - ready, completed + ready);
      var L := Layers(tm, remaining, completed);
      assert L[1..] == Layers(tm, remaining - ready, completed + ready);
    }
  }

  /** The waves are pairwise disjoint. */
  lemma {:induction false} LayersDisjoint(tm: map<string, Subtask>, remaining: set<string>, completed: set<string>)
    requires remaining <= tm.Keys
    ensures var L := Layers(tm, remaining, completed);
      forall i, j :: 0 <= i < j < |L| ==> L[i] !! L[j]
    decreases |remaining|
  {
    var ready := ReadySet(tm, remaining, completed);
    LayersUnfold(tm, remaining, completed);
    if ready != {} {
      var rest := remaining - ready;
      ReadyShrinks(tm, remaining, completed);
      LayersDisjoint(tm, rest, completed + ready);
      LayersWithin(tm, rest, completed + ready);
      var L, L' := Layers(tm, remaining, completed), Layers(tm, rest, completed + ready);
      assert L[0] == ready && L[1..] == L';
      forall i, j | 0 <= i < j < |L| ensures L[i] !! L[j] {
        assert L[j] == L'[j - 1];
        if i > 0 {
          assert L[i] == L'[i - 1];
        } else {
          assert L'[j - 1] <= rest;
        }
      }
    }
  }

  /** Each task was ready when its wave was formed: every dependency was
      completed before or lies in an earlier wave. */
  lemma {:induction false} LayersReady(tm: map<string, Subtask>, remaining: set<string>, completed: set<string>)
    requires remaining <= tm.Keys
    ensures var L := Layers(tm, remaining, completed);
      forall i, id :: 0 <= i < |L| && id in L[i] && id in tm ==> Ready(tm[id], completed + Union(L[..i]))
    decreases |remaining|
  {
    var ready := ReadySet(tm, remaining, completed);
    LayersUnfold(tm, remaining, completed);
    if ready != {} {
      var rest := remaining - ready;
      ReadyShrinks(tm, remaining, completed);
      LayersReady(tm, rest, completed + ready);
      var L, L' := Layers(tm, remaining, completed), Layers(tm, rest, completed + ready);
      forall i, id | 0 <= i < |L| && id in L[i] && id in tm ensures Ready(tm[id], completed + Union(L[..i])) {
        if i > 0 {
          assert L[..i] == [ready] + L'[..i - 1];
          assert L[..i][1..] == L'[..i - 1];
          assert Union(L[..i]) == ready + Union(L'[..i - 1]);
          assert id in L'[i - 1];
        } else {
          assert L[..0] == [];
        }
      }
    }
  }

  /** Every task left over is not ready even against everything scheduled. */
  lemma {:induction false} LayersStuck(tm: map<string, Subtask>, remaining: set<string>, completed: set<string>)
    requires remaining <= tm.Keys
    ensures var L := Layers(tm, remaining, completed);
      forall id :: id in remaining - Union(L) ==> !Ready(tm[id], completed + Union(L))
    decreases |remaining|
  {
    var ready := ReadySet(tm, remaining, completed);
    LayersUnfold(tm, remaining, completed);
    if ready != {} {
      var rest := remaining - ready;
      ReadyShrinks(tm, remaining, completed);
      LayersStuck(tm, rest, completed + ready);
      var L, L' := Layers(tm, remaining, completed), Layers(tm, rest, completed + ready);
      assert L[1..] == L';
      assert Union(L) == ready + Union(L');
    }
  }

  /** Each dependency of a task lies in a strictly earlier wave. */
  lemma DependenciesInEarlierWaves(tasks: seq<Subtask>, i: nat, id: string, d: string)
    requires i < |Layers(TaskMap(tasks), TaskIds(tasks), {})|
    requires id in Layers(TaskMap(tasks), TaskIds(tasks), {})[i] && id in TaskIds(tasks)
    requires d in TaskMap(tasks)[id].dependencies
    ensures exists j :: 0 <= j < i && d in Layers(TaskMap(tasks), TaskIds(tasks), {})[j]
  {
    var tm := TaskMap(tasks);
    var L := Layers(tm, TaskIds(tasks), {});
    LayersReady(tm, TaskIds(tasks), {});
    assert Ready(tm[id], {} + Union(L[..i]));
    UnionMember(L[..i], d);
    var j :| 0 <= j < |L[..i]| && d in L[..i][j];
    assert d in L[j];
  }

  /** The set of scheduled task ids. */
  ghost function Scheduled(tasks: seq<Subtask>): set<string>
  {
    Union(Layers(TaskMap(tasks), TaskIds(tasks), {}))
  }

  /** Every dependency of a scheduled task is itself scheduled. */
  lemma ScheduledClosed(tasks: seq<Subtask>, id: string, d: string)
    requires id in Scheduled(tasks) && id in TaskIds(tasks)
    requires d in TaskMap(tasks)[id].dependencies
    ensures d in Scheduled(tasks)
  {
    var tm := TaskMap(tasks);
    var L := Layers(tm, TaskIds(tasks), {});
    UnionMember(L, id);
    var i :| 0 <= i < |L| && id in L[i];
    DependenciesInEarlierWaves(tasks, i, id, d);
    var j :| 0 <= j < i && d in L[j];
    UnionMember(L, d);
  }

  /** Planning stops only when no remaining task is ready: every task left
      out has a dependency that is unknown or itself left out. */
  lemma UnscheduledAreStuck(tasks: seq<Subtask>, id: string)
    requires id in TaskIds(tasks) - Scheduled(tasks)
    ensures exists d :: d in TaskMap(tasks)[id].dependencies && d !in Scheduled(tasks)
  {
    LayersStuck(TaskMap(tasks), TaskIds(tasks), {});
    assert !Ready(TaskMap(tasks)[id], {} + Scheduled(tasks));
  }

  /** A task with a dependency id outside the task list is never scheduled. */
  lemma UnknownDependencyNeverScheduled(tasks: seq<Subtask>, id: string, d: string)
    requires id in TaskIds(tasks)
    requires d in TaskMap(tasks)[id].dependencies && d !in TaskIds(tasks)
    ensures id !in Scheduled(tasks)
  {
    LayersWithin(TaskMap(tasks), TaskIds(tasks), {});
    if id in Scheduled(tasks) {
      ScheduledClosed(tasks, id, d);
      assert false;
    }
  }

  /** `cycle` is a dependency cycle: each entry depends on the next and the
      last entry is the first. */
  ghost predicate IsCycle(tm: map<string, Subtask>, cycle: seq<string>)
  {
    && |cycle| >= 2
    && cycle[0] == cycle[|cycle| - 1]
    && (forall k :: 0 <= k < |cycle| - 1 ==> cycle[k] in tm && cycle[k + 1] in tm[cycle[k]].dependencies)
  }

  /** Walking along dependencies from a scheduled task, the wave index drops
      by at least one per step. */
  lemma {:induction false} WaveIndexDrops(tasks: seq<Subtask>, cycle: seq<string>, k: nat, i: nat, m: nat)
    requires IsCycle(TaskMap(tasks), cycle)
    requires k <= m < |cycle|
    requires i < |Layers(TaskMap(tasks), TaskIds(tasks), {})|
    requires cycle[k] in Layers(TaskMap(tasks), TaskIds(tasks), {})[i]
    ensures exists j :: 0 <= j <= i - (m - k) && cycle[m] in Layers(TaskMap(tasks), TaskIds(tasks), {})[j]
    decreases m - k
  {
    if m > k {
      DependenciesInEarlierWaves(tasks, i, cycle[k], cycle[k + 1]);
      var j :| 0 <= j < i && cycle[k + 1] in Layers(TaskMap(tasks), TaskIds(tasks), {})[j];
      WaveIndexDrops(tasks, cycle, k + 1, j, m);
    }
  }

  /** No task on a dependency cycle is ever scheduled. */
  lemma CycleNeverScheduled(tasks: seq<Subtask>, cycle: seq<string>, k: nat)
    requires IsCycle(TaskMap(tasks), cycle)
    requires k < |cycle|
    ensures cycle[k] !in Scheduled(tasks)
  {
    var tm := TaskMap(tasks);
    var L := Layers(tm, TaskIds(tasks), {});
    LayersDisjoint(tm, TaskIds(tasks), {});
    if cycle[k] in Scheduled(tasks) {
      UnionMember(L, cycle[k]);
      var i :| 0 <= i < |L| && cycle[k] in L[i];
      // follow the cycle to its end, which is its start
      WaveIndexDrops(tasks, cycle, k, i, |cycle| - 1);
      var i0 :| 0 <= i0 <= i - (|cycle| - 1 - k) && cycle[0] in L[i0];
      // and once more around the whole cycle
      WaveIndexDrops(tasks, cycle, 0, i0, |cycle| - 1);
      assert false;
    }
  }

  lemma DistinctConcat(x: seq<string>, y: seq<string>)
    ensures Distinct(x + y) <==> Distinct(x) && Distinct(y) && Elems(x) !! Elems(y)
  {
    var r := x + y;
    if Distinct(x) && Distinct(y) && Elems(x) !! Elems(y) {
      forall i, j | 0 <= i < j < |r| ensures r[i] != r[j] {
        if i < |x| && j >= |x| {
          assert r[i] in Elems(x) && r[j] in Elems(y);
        } else if i >= |x| {
          assert r[i] == y[i - |x|] && r[j] == y[j - |x|];
        }
      }
    }
    if Distinct(r) {
      forall i, j | 0 <= i < j < |x| ensures x[i] != x[j] {
        assert r[i] == x[i] && r[j] == x[j];
      }
      forall i, j | 0 <= i < j < |y| ensures y[i] != y[j] {
        assert r[i + |x|] == y[i] && r[j + |x|] == y[j];
      }
      forall e | e in Elems(x) ensures e !in Elems(y) {
        var i :| 0 <= i < |x| && x[i] == e;
        forall j | 0 <= j < |y| ensures y[j] != e {
          assert r[i] == e && r[j + |x|] == y[j];
        }
      }
    }
  }

  lemma DisjointFromLater(waves: seq<seq<string>>)
    requires waves != []
    requires forall i, j :: 0 <= i < j < |waves| ==> Elems(waves[i]) !! Elems(waves[j])
    ensures Elems(waves[0]) !! Union(Sets(waves[1..]))
  {
    forall x | x in Elems(waves[0]) ensures x !in Union(Sets(waves[1..])) {
      UnionMember(Sets(waves[1..]), x);
    }
  }

  /** Every scheduled task appears exactly once across the two buckets, and
      nothing else does. */
  /** Together the two buckets hold exactly the ids of the waves. */
  lemma {:induction false} BucketsCover(waves: seq<seq<string>>)
    ensures Elems(Bucket(waves, false)) + Elems(Bucket(waves, true)) == Union(Sets(waves))
  {
    if waves != [] {
      var w, rest := waves[0], waves[1..];
      BucketsCover(rest);
      assert Sets(waves)[1..] == Sets(rest);
      assert Union(Sets(waves)) == Elems(w) + Union(Sets(rest));
      var s', p' := Bucket(rest, false), Bucket(rest, true);
      if |w| > 1 {
        assert Elems(w + p') == Elems(w) + Elems(p');
      } else {
        assert Elems(w + s') == Elems(w) + Elems(s');
      }
    }
  }

  /** Each bucket lists its ids once, and the buckets share none. */
  lemma {:induction false} BucketsDistinct(waves: seq<seq<string>>)
    requires forall i :: 0 <= i < |waves| ==> Distinct(waves[i])
    requires forall i, j :: 0 <= i < j < |waves| ==> Elems(waves[i]) !! Elems(waves[j])
    ensures Distinct(Bucket(waves, false)) && Distinct(Bucket(waves, true))
    ensures Elems(Bucket(waves, false)) !! Elems(Bucket(waves, true))
  {
    if waves != [] {
      var w, rest := waves[0], waves[1..];
      forall i, j | 0 <= i < j < |rest| ensures Elems(rest[i]) !! Elems(rest[j]) {
        assert rest[i] == waves[i + 1] && rest[j] == waves[j + 1];
      }
      BucketsDistinct(rest);
      BucketsCover(rest);
      DisjointFromLater(waves);
      var s', p' := Bucket(rest, false), Bucket(rest, true);
      if |w| > 1 {
        DistinctConcat(w, p');
        assert Elems(w + p') == Elems(w) + Elems(p');
      } else {
        DistinctConcat(w, s');
        assert Elems(w + s') == Elems(w) + Elems(s');
      }
    }
  }

  /** Every scheduled task appears exactly once across the two buckets, and
      nothing else does. */
  lemma {:induction false} BucketsPartition(waves: seq<seq<string>>)
    requires forall i :: 0 <= i < |waves| ==> Distinct(waves[i])
    requires forall i, j :: 0 <= i < j < |waves| ==> Elems(waves[i]) !! Elems(waves[j])
    ensures Distinct(Bucket(waves, false) + Bucket(waves, true))
    ensures Elems(Bucket(waves, false) + Bucket(waves, true)) == Union(Sets(waves))
  {
    BucketsCover(waves);
    BucketsDistinct(waves);
    DistinctConcat(Bucket(waves, false), Bucket(waves, true));
    assert Elems(Bucket(waves, false) + Bucket(waves, true)) == Elems(Bucket(waves, false)) + Elems(Bucket(waves, true));
  }

  /** The example's task map and ids. */
  lemma ExampleTaskMap(a: Subtask, b: Subtask, c: Subtask)
    requires a.taskId == "A" && b.taskId == "B" && c.taskId == "C"
    ensures TaskMap([a, b, c]) == map["A" := a, "B" := b, "C" := c]
    ensures TaskIds([a, b, c]) == {"A", "B", "C"}
  {
    assert [a, b, c][..2] == [a, b] && [a, b][..1] == [a] && [a][..0] == [];
  }

  /** Worked example: A and B independent, C depending on both, gives the
      wave {A, B} then the wave {C}. */
  lemma ExampleDiamond(a: Subtask, b: Subtask, c: Subtask)
    requires a.taskId == "A" && b.taskId == "B" && c.taskId == "C"
    requires a.dependencies == [] && b.dependencies == [] && c.dependencies == ["A", "B"]
    ensures Layers(TaskMap([a, b, c]), TaskIds([a, b, c]), {}) == [{"A", "B"}, {"C"}]
  {
    ExampleTaskMap(a, b, c);
    var tm := map["A" := a, "B" := b, "C" := c];
    var ids: set<string> := {"A", "B", "C"};
    assert !Ready(c, {}) by { assert "A" in c.dependencies; }
    var ab: set<string> := {"A", "B"};
    var cs: set<string> := {"C"};
    var none: set<string> := {};
    assert ReadySet(tm, ids, {}) == ab;
    LayersUnfold(tm, ids, {});
    assert ids - ab == cs && {} + ab == ab;
    assert Layers(tm, ids, {}) == [ab] + Layers(tm, cs, ab);
    assert ReadySet(tm, cs, ab) == cs;
    LayersUnfold(tm, cs, ab);
    assert cs - cs == none && ab + cs == ids;
    assert Layers(tm, cs, ab) == [cs] + Layers(tm, none, ids);
    assert ReadySet(tm, none, ids) == {};
    LayersUnfold(tm, none, ids);
  }

  /** Every subtask the decomposition produces gets a fresh id; when no
      fresh id is among the dependency names the model wrote, a subtask that
      names any dependency is never scheduled. */
  lemma DependentSubtasksNeverScheduled(tasks: seq<Subtask>, id: string)
    requires forall t, u :: t in tasks && u in tasks ==> u.taskId !in t.dependencies
    requires id in TaskIds(tasks) && TaskMap(tasks)[id].dependencies != []
    ensures id !in Scheduled(tasks)
  {
    var d := TaskMap(tasks)[id].dependencies[0];
    assert d !in TaskIds(tasks);
    UnknownDependencyNeverScheduled(tasks, id, d);
  }
}
