/** supervisor-swarm-simple.py: the supervisor and swarm graphs over one
    shared `TaskState`.  None of its workers guards its body, so an exception
    of a worker ends a supervisor request but is caught, key by key, by the
    swarm's fan-out. */
module SupervisorSwarmSimple {
  import opened Foreign
  import opened GraphState
  import opened Labels
  import Text
  import ModelWorkers
  import Supervisor
  import Swarm

  /** The `workers` dict of assign_worker and parallel_processing: the bare
      worker bodies. */
  function Run(svc: ModelWorkers.Services): (Worker, string) -> Reply<string> {
    (w, input) => ModelWorkers.Body(w, input, svc)
  }

  /** The same worker exception has two fates: assign_worker lets it escape,
      parallel_processing stores "处理失败: " and the message under that
      worker's key and still returns. */
  lemma AssignRaisesWhereSwarmCatches(s: State, svc: ModelWorkers.Services, w: Worker)
    requires GetStr(s, "assigned_worker", "analysis") == Name(w)
    requires ModelWorkers.Body(w, GetStr(s, "user_input", ""), svc).Raised?
    ensures Supervisor.Assign(s, Run(svc)) == Raised(ModelWorkers.Body(w, GetStr(s, "user_input", ""), svc).message)
    ensures var results := GetTable(Update(s, Swarm.ParallelUpdate(s, Workers, Run(svc))), "parallel_results");
            && Name(w) in results
            && results[Name(w)] == Swarm.FailurePrefix + ModelWorkers.Body(w, GetStr(s, "user_input", ""), svc).message
  {
    ParseName(w);
    WorkersKeys();
    var u := Swarm.ParallelUpdate(s, Workers, Run(svc));
    assert GetTable(Update(s, u), "parallel_results") == u["parallel_results"].table;
    Swarm.ParallelUpdateAt(s, Workers, Run(svc), IndexOf(w));
  }

  /** Both graphs are typed by one `TaskState` record, though each is compiled
      and invoked on its own: the swarm writes none of the supervisor's keys
      of that record, so on any state they keep their presence and value. */
  lemma SharedStateKeepsSupervisorKeys(s1: State, svc: ModelWorkers.Services,
                                       synth: (string, seq<string>) -> Reply<string>)
    requires Swarm.Pipeline(s1, Workers, Run(svc), Names, synth).Returned?
    ensures var s2 := Swarm.Pipeline(s1, Workers, Run(svc), Names, synth).value;
            forall k :: k in {"task_type", "assigned_worker", "worker_result"} ==>
              (k in s2 <==> k in s1) && (k in s1 ==> s2[k] == s1[k])
  {
    forall k | k in {"task_type", "assigned_worker", "worker_result"}
      ensures var s2 := Swarm.Pipeline(s1, Workers, Run(svc), Names, synth).value;
              (k in s2 <==> k in s1) && (k in s1 ==> s2[k] == s1[k])
    {
      Swarm.PipelineKeepsOtherKeys(s1, Workers, Run(svc), Names, synth, k);
    }
  }
}
