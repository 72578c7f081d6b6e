/** langgraph-supervisor-swarm.py: the supervisor and swarm graphs over a real
    chat model.  The nodes are the shared `Supervisor` and `Swarm` members;
    what is particular to this script is that only the research worker
    guards its body, so a failing search or model call during research is
    answered with an error text, while the other three workers let their
    exception escape. */
module LanggraphSupervisorSwarm {
  import opened Foreign
  import opened GraphState
  import opened Labels
  import Text
  import ModelWorkers
  import Supervisor
  import Swarm

  /** research_worker, analysis_worker, creative_worker and technical_worker:
      the research body is guarded, the others are not. */
  function RunWorker(w: Worker, input: string, svc: ModelWorkers.Services): (r: Reply<string>)
    ensures w == Research ==> r.Returned?
    ensures w != Research ==> r == ModelWorkers.Body(w, input, svc)
  {
    if w == Research then ModelWorkers.Guarded(ModelWorkers.ResearchError, ModelWorkers.Body(w, input, svc))
    else ModelWorkers.Body(w, input, svc)
  }

  /** The `workers` dict of supervisor_assign and swarm_parallel. */
  function Run(svc: ModelWorkers.Services): (Worker, string) -> Reply<string> {
    (w, input) => RunWorker(w, input, svc)
  }

  /** A request the model classifies as research always completes, even when
      the search or the model call inside the worker fails: the result is
      the model's report or the research error text, and `done` is set. */
  lemma ResearchRequestCompletes(s0: State, classifier: string -> Reply<string>, svc: ModelWorkers.Services,
                                 reply: string)
    requires classifier(GetStr(s0, "user_input", "")) == Returned(reply)
    requires Text.Normalize(reply) == "research"
    ensures Supervisor.Supervise(s0, classifier, Run(svc)).Returned?
    ensures var run := Supervisor.Supervise(s0, classifier, Run(svc)).value;
            var attempt := ModelWorkers.Body(Research, GetStr(s0, "user_input", ""), svc);
            && run.invoked == [Research]
            && Has(run.final, "done", Bool(true))
            && (attempt.Returned? ==> Has(run.final, "worker_result", Str(attempt.value)))
            && (attempt.Raised? ==> Has(run.final, "worker_result", Str(ModelWorkers.ResearchError + attempt.message)))
  {
    assert Parse(Text.Normalize(reply)) == Some(Research);
    Supervisor.SuperviseRunsAtMostOneWorker(s0, classifier, Run(svc), reply);
  }

  /** An analysis, creative or technical request whose worker raises ends the
      supervisor run with that exception. */
  lemma UnguardedWorkerFailureEscapes(s0: State, classifier: string -> Reply<string>, svc: ModelWorkers.Services,
                                      reply: string, w: Worker)
    requires classifier(GetStr(s0, "user_input", "")) == Returned(reply)
    requires Text.Normalize(reply) == Name(w) && w != Research
    requires ModelWorkers.Body(w, GetStr(s0, "user_input", ""), svc).Raised?
    ensures Supervisor.Supervise(s0, classifier, Run(svc))
            == Raised(ModelWorkers.Body(w, GetStr(s0, "user_input", ""), svc).message)
  {
    ParseName(w);
    Supervisor.SuperviseRunsAtMostOneWorker(s0, classifier, Run(svc), reply);
  }

  /** In swarm_parallel the research entry is never the "处理失败" placeholder
      of a caught exception: it holds the guarded research answer, while the
      other three entries hold their reply or the placeholder. */
  lemma SwarmResearchEntry(s: State, svc: ModelWorkers.Services)
    ensures var results := GetTable(Update(s, Swarm.ParallelUpdate(s, Workers, Run(svc))), "parallel_results");
            var input := GetStr(s, "user_input", "");
            && results.Keys == {"research", "analysis", "creative", "technical"}
            && results["research"] == RunWorker(Research, input, svc).value
            && forall w :: w != Research ==> results[Name(w)] == Swarm.Placeholder(ModelWorkers.Body(w, input, svc))
  {
    WorkersKeys();
    var input := GetStr(s, "user_input", "");
    var u := Swarm.ParallelUpdate(s, Workers, Run(svc));
    assert GetTable(Update(s, u), "parallel_results") == u["parallel_results"].table;
    Swarm.ParallelUpdateKeys(s, Workers, Run(svc));
    Swarm.ParallelUpdateAt(s, Workers, Run(svc), 0);
    forall w | w != Research
      ensures u["parallel_results"].table[Name(w)] == Swarm.Placeholder(ModelWorkers.Body(w, input, svc))
    {
      Swarm.ParallelUpdateAt(s, Workers, Run(svc), IndexOf(w));
    }
  }
}
