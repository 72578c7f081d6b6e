/** supervisor-swarm-demo.py: the object-style variant.  A `SupervisorAgent`
    holds its worker table, set up by its constructor; its classifier writes
    the label under `assigned_agent`, and its assignment records the result
    both as `final_result` and in a one-entry `worker_results` dict.  A
    `SwarmIntelligence` holds its agents under role names (researcher,
    analyst, creator, technician) and fans out and joins over those names. */
module SupervisorSwarmDemo {
  import opened Foreign
  import opened GraphState
  import opened Labels
  import Text
  import Supervisor
  import Swarm

  /** The supervisor's worker table, keyed by label. */
  const Registered: map<string, Worker> :=
    map["research" := Research, "analysis" := Analysis, "creative" := Creative, "technical" := Technical]

  /** The swarm's agents, keyed by role name, in insertion order. */
  const Agents: seq<(string, Worker)> :=
    [("researcher", Research), ("analyst", Analysis), ("creator", Creative), ("technician", Technical)]

  /** The keys consensus_building quotes, in order. */
  const AgentKeys: seq<string> := ["researcher", "analyst", "creator", "technician"]

  class SupervisorAgent {
    const workers: map<string, Worker>

    /** `__init__`: the worker table has exactly the four labels, each
        selecting the worker of that name. */
    constructor()
      ensures workers.Keys == {"research", "analysis", "creative", "technical"}
      ensures forall w :: Name(w) in workers && workers[Name(w)] == w
    {
      workers := Registered;
      new;
      forall w ensures Name(w) in workers && workers[Name(w)] == w {
        match w
        case Research =>
        case Analysis =>
        case Creative =>
        case Technical =>
      }
    }

    /** classify_task: the trimmed, lower-cased model reply becomes both
        `task_type` and `assigned_agent`, and `step` goes up by one. */
    function ClassifyTask(s: State, classifier: string -> Reply<string>): (r: Reply<State>)
      ensures r.Raised? <==> classifier(GetStr(s, "user_input", "")).Raised?
      ensures r.Returned? ==> r.value.Keys == {"task_type", "assigned_agent", "step"}
      ensures r.Returned? ==> r.value["task_type"] == r.value["assigned_agent"]
      ensures r.Returned? ==> r.value["step"] == Int(GetInt(s, "step", 0) + 1)
      ensures r.Returned? ==> r.value["task_type"] == Str(Text.Normalize(classifier(GetStr(s, "user_input", "")).value))
    {
      var reply :- classifier(GetStr(s, "user_input", ""));
      var taskType := Text.Normalize(reply);
      Returned(map["task_type" := Str(taskType), "assigned_agent" := Str(taskType),
                   "step" := Int(GetInt(s, "step", 0) + 1)])
    }

    /** assign_task: for a label in the table, the worker's answer is both the
        final result and the only entry of `worker_results`, under the label;
        for any other label the answer is the apology and no `worker_results`
        key is written.  `done` is set either way. */
    function AssignTask(s: State, process: (Worker, string) -> Reply<string>): (r: Reply<State>)
      ensures var taskType := GetStr(s, "assigned_agent", "analysis");
              && (taskType !in workers ==>
                    r == Returned(map["final_result" := Str(Supervisor.Apology), "done" := Bool(true)]))
              && (taskType in workers ==>
                    && (r.Raised? <==> process(workers[taskType], GetStr(s, "user_input", "")).Raised?)
                    && (r.Returned? ==>
                          && r.value.Keys == {"worker_results", "final_result", "done"}
                          && r.value["done"] == Bool(true)
                          && r.value["final_result"] == Str(process(workers[taskType], GetStr(s, "user_input", "")).value)
                          && r.value["worker_results"] == Table(map[taskType := r.value["final_result"].str])))
    {
      var taskType := GetStr(s, "assigned_agent", "analysis");
      if taskType in workers then
        var result :- process(workers[taskType], GetStr(s, "user_input", ""));
        Returned(map["worker_results" := Table(map[taskType := result]), "final_result" := Str(result),
                     "done" := Bool(true)])
      else
        Returned(map["final_result" := Str(Supervisor.Apology), "done" := Bool(true)])
    }

    /** The demo's router reads `task_type` while the agent dispatches on
        `assigned_agent`; classify writes the same label to both, so the graph
        reaches assign exactly for a label the agent's table holds. */
    lemma RouteAgreesWithWorkers(s: State, classifier: string -> Reply<string>)
      requires workers == Registered
      requires ClassifyTask(s, classifier).Returned?
      ensures var s1 := Update(s, ClassifyTask(s, classifier).value);
              (Supervisor.Route(s1) == "assign") == (GetStr(s1, "assigned_agent", "analysis") in workers)
    {
      var s1 := Update(s, ClassifyTask(s, classifier).value);
      assert GetStr(s1, "assigned_agent", "analysis") == GetStr(s1, "task_type", "");
    }
  }

  class SwarmIntelligence {
    const agents: seq<(string, Worker)>

    /** `__init__`: the four agents under their role names. */
    constructor()
      ensures agents == Agents
    {
      agents := Agents;
    }

    /** parallel_processing: every agent answers the same request; the keys
        are exactly the four role names, a raising agent leaves the
        "处理失败: " placeholder under its own name, and `step` goes up by one. */
    method ParallelProcessing(s: State, process: (Worker, string) -> Reply<string>) returns (u: State)
      requires agents == Agents
      ensures u == Swarm.ParallelUpdate(s, agents, process)
      ensures u["parallel_results"].Table?
      ensures u["parallel_results"].table.Keys == {"researcher", "analyst", "creator", "technician"}
      ensures u["step"] == Int(GetInt(s, "step", 0) + 1)
    {
      AgentsDistinct();
      u := Swarm.Parallel(s, agents, process);
      Swarm.CollectedKeys(agents, GetStr(s, "user_input", ""), process);
    }

    /** consensus_building: the synthesising model call sees the request and
        the results quoted by role name; its answer is stored and `done` is set. */
    function ConsensusBuilding(s: State, synth: (string, seq<string>) -> Reply<string>): (r: Reply<State>)
      ensures r.Raised? <==> synth(GetStr(s, "user_input", ""), Swarm.Views(s, AgentKeys)).Raised?
      ensures r.Returned? ==> r.value.Keys == {"consensus_result", "done"} && r.value["done"] == Bool(true)
      ensures r.Returned? ==>
                r.value["consensus_result"] == Str(synth(GetStr(s, "user_input", ""), Swarm.Views(s, AgentKeys)).value)
    {
      Swarm.Consensus(s, AgentKeys, synth)
    }
  }

  /** The role names of the swarm are distinct, and they are the names the
      consensus quotes, in the same order. */
  lemma AgentsDistinct()
    ensures Swarm.DistinctNames(Agents)
    ensures Swarm.Names(Agents) == AgentKeys
    ensures (set i | 0 <= i < |Agents| :: Agents[i].0) == {"researcher", "analyst", "creator", "technician"}
  {
    var keys := set i | 0 <= i < |Agents| :: Agents[i].0;
    assert Agents[0].0 in keys && Agents[1].0 in keys && Agents[2].0 in keys && Agents[3].0 in keys;
  }

  /** consensus_building reads exactly what parallel_processing wrote: each
      quoted role holds that agent's own answer or placeholder, and none falls
      back to ''. */
  lemma ConsensusReadsParallelResults(s: State, process: (Worker, string) -> Reply<string>)
    ensures var views := Swarm.Views(Update(s, Swarm.ParallelUpdate(s, Agents, process)), AgentKeys);
            && |views| == 4
            && forall i :: 0 <= i < 4 ==> views[i] == Swarm.Placeholder(process(Agents[i].1, GetStr(s, "user_input", "")))
  {
    AgentsDistinct();
    Swarm.JoinReadsFanOut(s, Agents, process);
  }
}
