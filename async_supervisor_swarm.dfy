/** async-supervisor-swarm.py: the asynchronous variant.  Every worker guards
    its own body with a worker-specific error text, and the swarm starts one
    task per worker, waits for all of them with `asyncio.gather(...,
    return_exceptions=True)` and pairs the results with the worker names by
    position.  Concurrency itself is not modelled: `gather` returns the
    results in the order of the tasks it was given, whatever order they
    finish in, and that positional list is what the model computes. */
module AsyncSupervisorSwarm {
  import opened Foreign
  import opened GraphState
  import opened Labels
  import ModelWorkers
  import Supervisor
  import Swarm

  /** async_research_worker, async_analysis_worker, async_creative_worker and
      async_technical_worker: each answers with its body's reply or with its
      own error text; none raises. */
  function AsyncWorker(w: Worker, input: string, svc: ModelWorkers.Services): (r: Reply<string>)
    ensures r.Returned?
    ensures ModelWorkers.Body(w, input, svc).Returned? ==> r == ModelWorkers.Body(w, input, svc)
    ensures ModelWorkers.Body(w, input, svc).Raised? ==>
              r.value == ModelWorkers.ErrorPrefix(w) + ModelWorkers.Body(w, input, svc).message
  {
    ModelWorkers.Guarded(ModelWorkers.ErrorPrefix(w), ModelWorkers.Body(w, input, svc))
  }

  /** The `workers` dict of async_supervisor_assign and async_swarm_parallel. */
  function Run(svc: ModelWorkers.Services): (Worker, string) -> Reply<string> {
    (w, input) => AsyncWorker(w, input, svc)
  }

  /** `asyncio.gather(*tasks, return_exceptions=True)`: one outcome per task,
      in task order, an exception being returned rather than raised. */
  function Gather<W>(tasks: seq<W>, input: string, run: (W, string) -> Reply<string>): (results: seq<Reply<string>>)
    ensures |results| == |tasks|
    ensures forall i :: 0 <= i < |tasks| ==> results[i] == run(tasks[i], input)
  {
    seq(|tasks|, i requires 0 <= i < |tasks| => run(tasks[i], input))
  }

  /** async_swarm_parallel: build the task list and the name list in one
      loop, gather, then store each outcome under the name at the same
      position, an exception as the "处理失败: " placeholder.  The result is
      the partial state every swarm variant computes: each worker's outcome
      under its own name. */
  method GatherParallel<W>(s: State, table: seq<(string, W)>, run: (W, string) -> Reply<string>) returns (u: State)
    ensures u == Swarm.ParallelUpdate(s, table, run)
  {
    var input := GetStr(s, "user_input", "");
    var tasks: seq<W> := [];
    var workerNames: seq<string> := [];
    for i := 0 to |table|
      invariant |tasks| == |workerNames| == i
      invariant forall j :: 0 <= j < i ==> tasks[j] == table[j].1 && workerNames[j] == table[j].0
    {
      var (name, worker) := table[i];
      tasks := tasks + [worker];
      workerNames := workerNames + [name];
    }
    var results := Gather(tasks, input, run);
    var parallelResults: map<string, string> := map[];
    for i := 0 to |workerNames|
      invariant parallelResults == Swarm.Collected(table[..i], input, run)
    {
      var name, result := workerNames[i], results[i];
      if result.Raised? {
        parallelResults := parallelResults[name := Swarm.FailurePrefix + result.message];
      } else {
        parallelResults := parallelResults[name := result.value];
      }
      assert table[..i + 1][..i] == table[..i];
    }
    assert table[..|table|] == table;
    u := map["parallel_results" := Table(parallelResults), "step" := Int(GetInt(s, "step", 0) + 1)];
  }

  /** async_supervisor_assign never raises: the dispatched worker answers
      with its reply or its error text, and the apology covers unknown
      labels; `done` is always set. */
  lemma AssignNeverRaises(s: State, svc: ModelWorkers.Services)
    ensures Supervisor.Assign(s, Run(svc)).Returned?
    ensures Has(Supervisor.Assign(s, Run(svc)).value, "done", Bool(true))
  {
  }

  /** The exception branch of the zip loop is never taken: since no worker
      raises, every entry of `parallel_results` is that worker's own reply or
      its worker-specific error text, never the "处理失败: " placeholder of a
      caught exception. */
  lemma SwarmHoldsGuardedAnswers(s: State, svc: ModelWorkers.Services)
    ensures var results := GetTable(Update(s, Swarm.ParallelUpdate(s, Workers, Run(svc))), "parallel_results");
            var input := GetStr(s, "user_input", "");
            && results.Keys == {"research", "analysis", "creative", "technical"}
            && forall w :: results[Name(w)] == AsyncWorker(w, input, svc).value
  {
    WorkersKeys();
    var u := Swarm.ParallelUpdate(s, Workers, Run(svc));
    assert GetTable(Update(s, u), "parallel_results") == u["parallel_results"].table;
    Swarm.ParallelUpdateKeys(s, Workers, Run(svc));
    forall w ensures u["parallel_results"].table[Name(w)] == AsyncWorker(w, GetStr(s, "user_input", ""), svc).value {
      Swarm.ParallelUpdateAt(s, Workers, Run(svc), IndexOf(w));
    }
  }
}
