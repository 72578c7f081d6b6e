/** test-supervisor-swarm.py: the self-contained variant of the supervisor and
    swarm demos.  The model is a keyword-matching mock, the search tool and the
    four workers are fixed text templates, and a small interpreter
    (`SimpleGraph`) runs the node functions one after another on a state
    dictionary.  Nothing here calls outside code, so every node is a total
    function of the state. */
module TestSupervisorSwarm {
  import opened Foreign
  import opened GraphState
  import opened Labels
  import Text
  import Supervisor
  import Swarm

  // ---------------------------------------------------------------- MockModel

  /** The keyword table of the mock model, in the order it is consulted. */
  const Keywords: seq<(string, string)> := [
    ("研究", "research"), ("搜索", "research"),
    ("分析", "analysis"), ("比较", "analysis"),
    ("创作", "creative"), ("写", "creative"),
    ("技术", "technical"), ("编程", "technical")
  ]

  /** The if/elif chain of `MockModel.invoke` on the first message's content. */
  function MockLabel(content: string): (r: string)
    ensures r in Names
  {
    if Text.Contains(content, "研究") || Text.Contains(content, "搜索") then "research"
    else if Text.Contains(content, "分析") || Text.Contains(content, "比较") then "analysis"
    else if Text.Contains(content, "创作") || Text.Contains(content, "写") then "creative"
    else if Text.Contains(content, "技术") || Text.Contains(content, "编程") then "technical"
    else "analysis"
  }

  /** The mock's chain is the first-match reading of its keyword table with
      "analysis" as the fallback: earlier keywords win over later ones. */
  lemma MockLabelIsFirstMatch(content: string)
    ensures MockLabel(content) == Text.FirstMatch(Keywords, content, "analysis")
  {
    var k := Keywords;
    assert k[1..][1..][1..][1..][1..][1..][1..][1..] == [];
    assert Text.FirstMatch(k[1..][1..][1..][1..][1..][1..][1..], content, "analysis")
        == if Text.Contains(content, "编程") then "technical" else "analysis";
    assert Text.FirstMatch(k[1..][1..][1..][1..][1..][1..], content, "analysis")
        == if Text.Contains(content, "技术") || Text.Contains(content, "编程") then "technical" else "analysis";
    assert Text.FirstMatch(k[1..][1..][1..][1..], content, "analysis")
        == if Text.Contains(content, "创作") || Text.Contains(content, "写") then "creative"
           else Text.FirstMatch(k[1..][1..][1..][1..][1..][1..], content, "analysis");
    assert Text.FirstMatch(k[1..][1..], content, "analysis")
        == if Text.Contains(content, "分析") || Text.Contains(content, "比较") then "analysis"
           else Text.FirstMatch(k[1..][1..][1..][1..], content, "analysis");
  }

  /** `MockModel.invoke(messages).content`: the label for the first message,
      or for the empty string when there is no message. */
  function MockInvoke(messages: seq<ChatMessage>): (r: string)
    ensures r in Names
    ensures messages == [] ==> r == "analysis"
  {
    MockLabel(if messages != [] then messages[0].content else "")
  }

  /** `MockSearch.invoke(query)`. */
  function MockSearch(query: string): string {
    "搜索结果: " + query
  }

  // ---------------------------------------------------------------- supervisor

  /** The lines of the classification prompt before the user request. */
  const PromptHead: string := "\n    分析用户请求，确定最适合的处理方式：\n    用户请求: "

  /** The prompt line describing the research label. */
  const ResearchOption: string := "    - research: 需要搜索信息、查找资料\n"

  /** The lines of the classification prompt between the user request and
      the list of labels. */
  const PromptIntro: string := "\n    \n    可选类型：\n"

  /** The lines of the classification prompt after the research label. */
  const PromptRest: string :=
    "    - analysis: 需要分析、比较、评估\n    - creative: 需要创作内容、写作\n    - technical: 需要技术实现、编程\n    \n    只返回一个关键词：research, analysis, creative, 或 technical\n    "

  /** The f-string `classification_prompt` for a user request. */
  function ClassificationPrompt(userInput: string): string {
    PromptHead + userInput + PromptIntro + ResearchOption + PromptRest
  }

  /** The prompt's own description of the research label contains "搜索",
      the mock's second research keyword, whatever the user typed. */
  lemma PromptMentionsSearch(userInput: string)
    ensures Text.Contains(ClassificationPrompt(userInput), "搜索")
  {
    assert "搜索" <= ResearchOption[18..];
    Text.ContainsWithin(PromptHead + userInput + PromptIntro, ResearchOption, PromptRest, "搜索");
  }

  /** The model call `supervisor_classify` makes; the mock never raises. */
  function MockClassifier(userInput: string): Reply<string> {
    Returned(MockInvoke([ChatMessage("user", ClassificationPrompt(userInput))]))
  }

  /** supervisor_classify under the mock model: "research" as the task type
      and the assigned worker, and `step` one more.  That this is what the
      classify node computes with the mock model is
      `SupervisorClassifyIsClassify`. */
  function SupervisorClassify(s: State): (r: State)
    ensures r.Keys == {"task_type", "assigned_worker", "step"}
    ensures r["task_type"] == r["assigned_worker"] == Str("research")
    ensures r["step"] == Int(GetInt(s, "step", 0) + 1)
  {
    Supervisor.Classified(s, "research")
  }

  /** The classify node with the mock model always stores "research": the
      prompt's own description of the research label mentions "搜索", so the
      mock answers "research" whatever the user typed. */
  lemma SupervisorClassifyIsClassify(s: State)
    ensures Supervisor.Classify(s, MockClassifier) == Returned(SupervisorClassify(s))
  {
    var input := GetStr(s, "user_input", "");
    PromptMentionsSearch(input);
    assert MockClassifier(input) == Returned("research");
    Supervisor.NormalizeName(Research);
  }

  /** The fixed text of the research report after its last quotation of the request. */
  const ResearchTail: string :=
    " 的详细研究\n- 基于最新信息进行分析\n- 提供了全面的背景资料\n\n💡 建议:\n- 建议进一步深入研究\n- 关注最新发展趋势\n- 保持信息更新\n"

  /** The fixed text of the analysis report after its last quotation of the request. */
  const AnalysisTail: string :=
    " 进行了深入分析\n- 识别了关键因素和影响因素\n- 评估了各种可能性和风险\n\n⚖️ 优缺点比较:\n- 优势: 具有明显的优势\n- 劣势: 存在一些挑战\n- 平衡: 总体评估良好\n\n🎯 建议和结论:\n- 建议采取积极措施\n- 重点关注关键领域\n- 持续监控和调整\n"

  /** The fixed text of the creative report after its last quotation of the request. */
  const CreativeTail: string :=
    " 设计了创新方案\n- 融合了多种创意元素\n- 注重实用性和美观性\n\n📝 详细内容:\n- 提供了完整的创意描述\n- 包含了实施细节\n- 考虑了各种可能性\n\n🚀 实施建议:\n- 分阶段实施\n- 注重用户体验\n- 持续优化改进\n"

  /** The fixed text of the technical report after its last quotation of the request. */
  const TechnicalTail: string :=
    " 设计了技术架构\n- 选择了合适的技术栈\n- 考虑了性能和可扩展性\n\n📋 实现步骤:\n1. 需求分析和设计\n2. 技术选型和架构\n3. 开发和测试\n4. 部署和维护\n\n💻 技术建议:\n- 使用现代技术栈\n- 注重代码质量\n- 持续集成和部署\n"

  /** The four report templates of research_worker, analysis_worker,
      creative_worker and technical_worker; the research report quotes the
      mock search result. */
  function Report(w: Worker, input: string): string {
    match w
    case Research =>
      "\n🔍 研究结果报告\n================\n用户问题: " + input + "\n搜索结果: " + MockSearch(input)
      + "\n\n📊 关键发现:\n- 这是关于 " + input + ResearchTail
    case Analysis =>
      "\n📈 分析报告\n============\n用户问题: " + input + "\n\n🔍 详细分析:\n- 对 " + input + AnalysisTail
    case Creative =>
      "\n🎨 创意方案\n============\n用户问题: " + input + "\n\n💡 创意构思:\n- 为 " + input + CreativeTail
    case Technical =>
      "\n⚙️ 技术解决方案\n================\n用户问题: " + input + "\n\n🔧 技术方案:\n- 为 " + input + TechnicalTail
  }

  /** Calling a worker of this script: it always returns its report. */
  function RunWorker(w: Worker, input: string): Reply<string> {
    Returned(Report(w, input))
  }

  /** supervisor_assign: the report of the worker registered for
      `assigned_worker` (default "analysis"), or the apology for an unknown
      label, with `done` set either way. */
  function SupervisorAssign(s: State): (r: State)
    ensures r.Keys == {"worker_result", "done"} && r["done"] == Bool(true)
    ensures Supervisor.Dispatch(s).None? ==> r["worker_result"] == Str(Supervisor.Apology)
    ensures Supervisor.Dispatch(s).Some? ==>
              r["worker_result"] == Str(Report(Supervisor.Dispatch(s).value, GetStr(s, "user_input", "")))
  {
    Supervisor.Assign(s, RunWorker).value
  }

  // ---------------------------------------------------------------- swarm

  /** swarm_parallel of this script: the loop of `Swarm.Parallel` over the
      dispatch dict of the four workers. */
  function SwarmParallel(s: State): (r: State)
    ensures r.Keys == {"parallel_results", "step"} && r["parallel_results"].Table?
    ensures r["step"] == Int(GetInt(s, "step", 0) + 1)
  {
    Swarm.ParallelUpdate(s, Workers, RunWorker)
  }

  /** The four labels, the keys of the dispatch dict. */
  const LabelSet: set<string> := {"research", "analysis", "creative", "technical"}

  /** swarm_parallel stores results under the four labels and nothing else,
      and `step` goes up by one. */
  lemma SwarmParallelKeys(s: State)
    ensures var u := SwarmParallel(s);
            && u.Keys == {"parallel_results", "step"}
            && u["step"] == Int(GetInt(s, "step", 0) + 1)
            && u["parallel_results"].Table?
            && u["parallel_results"].table.Keys == LabelSet
  {
    WorkersKeys();
    Swarm.ParallelUpdateKeys(s, Workers, RunWorker);
  }

  /** No worker of this script raises, so swarm_parallel stores each worker's
      report, not a placeholder, under the worker's own label. */
  lemma SwarmParallelReport(s: State, w: Worker)
    ensures Name(w) in SwarmParallel(s)["parallel_results"].table
    ensures SwarmParallel(s)["parallel_results"].table[Name(w)] == Report(w, GetStr(s, "user_input", ""))
  {
    WorkersKeys();
    Swarm.ParallelUpdateAt(s, Workers, RunWorker, IndexOf(w));
  }

  /** The fixed text of the consensus after the quoted request. */
  const ConsensusTail: string :=
    "\n\n🔍 各智能体观点总结:\n- 研究专家: 提供了详细的研究报告\n- 分析师: 进行了深入的分析和评估\n- 创意专家: 提出了创新的解决方案\n- 技术专家: 设计了技术实现方案\n\n🎯 综合建议:\n- 结合各专家的观点，我们建议采用综合方法\n- 既考虑技术可行性，又注重创新性\n- 平衡实用性和美观性\n- 持续优化和改进\n\n📈 实施路径:\n1. 研究阶段: 深入了解需求\n2. 分析阶段: 评估各种方案\n3. 创意阶段: 设计创新解决方案\n4. 技术阶段: 实现技术方案\n5. 整合阶段: 综合所有要素\n"

  /** The fixed consensus text of swarm_consensus, which quotes only the request. */
  function ConsensusReport(userInput: string): string {
    "\n🤝 群体智能共识\n================\n用户问题: " + userInput + ConsensusTail
  }

  /** swarm_consensus: the fixed consensus text for the request, and `done`. */
  function SwarmConsensus(s: State): (r: State)
    ensures r.Keys == {"consensus_result", "done"} && r["done"] == Bool(true)
  {
    map["consensus_result" := Str(ConsensusReport(GetStr(s, "user_input", ""))), "done" := Bool(true)]
  }

  /** The consensus is the same for two states with the same request, whatever
      their `parallel_results` hold. */
  lemma ConsensusIgnoresResults(s: State, t: State)
    requires GetStr(s, "user_input", "") == GetStr(t, "user_input", "")
    ensures SwarmConsensus(s) == SwarmConsensus(t)
  {
  }

  // ---------------------------------------------------------------- SimpleGraph

  /** The value an `edges` entry holds: a node name, or a dict of named
      targets (only "classify" reads one, under the key "route"). */
  datatype Edge = Next(target: string) | Routes(routes: map<string, string>)

  /** The outcome of running a graph: the final state and the nodes run, in order. */
  datatype Trace = Trace(final: State, visited: seq<string>)

  /** The final state of a run, or the exception that ended it. */
  function FinalOf(t: Reply<Trace>): Reply<State> {
    match t
    case Returned(tr) => Returned(tr.final)
    case Raised(m) => Raised(m)
  }

  /** The node-by-node interpreter.  Its tables are set by the constructor and
      never change; `Invoke` works on its own copy of the state. */
  class SimpleGraph {
    const nodes: map<string, State -> State>
    const edges: map<string, Edge>
    const startNode: string
    const endNode: string

    constructor(nodes: map<string, State -> State>, edges: map<string, Edge>, startNode: string, endNode: string)
      ensures this.nodes == nodes && this.edges == edges
      ensures this.startNode == startNode && this.endNode == endNode
    {
      this.nodes := nodes;
      this.edges := edges;
      this.startNode := startNode;
      this.endNode := endNode;
    }

    /** The routing step after node `current` has run and the state is `s`.
        For "classify" the edge is a dict whose "route" entry names the next
        node (default "assign"), the name "route" asking supervisor_route; for
        every other node the edge is the next node's name (default "END").
        The wrong kind of edge makes Python raise. */
    function NextNode(current: string, s: State): (r: Reply<string>)
      ensures r.Returned? ==> r.value in Successors(current)
      ensures r.Raised? <==> current in edges && (edges[current].Next? <==> current == "classify")
      ensures current == "classify" && current in edges && edges[current].Routes?
              && TableGet(edges[current].routes, "route", "assign") == "route" ==>
                r == Returned(Supervisor.Route(s))
      ensures current == "classify" && current !in edges ==> r == Returned("assign")
    {
      if current == "classify" then
        var e := if current in edges then edges[current] else Routes(map[]);
        if e.Next? then Raised("AttributeError: 'str' object has no attribute 'get'")
        else
          var next := TableGet(e.routes, "route", "assign");
          Returned(if next == "route" then Supervisor.Route(s) else next)
      else
        var e := if current in edges then edges[current] else Next("END");
        if e.Routes? then Raised("TypeError: unhashable type: 'dict'")
        else Returned(e.target)
    }

    /** The nodes the routing step can name after `current`, whatever the state. */
    function Successors(current: string): set<string> {
      if current == "classify" then
        var e := if current in edges then edges[current] else Routes(map[]);
        if e.Next? then {}
        else
          var next := TableGet(e.routes, "route", "assign");
          if next == "route" then {"assign", "finish"} else {next}
      else
        var e := if current in edges then edges[current] else Next("END");
        if e.Routes? then {} else {e.target}
    }

    /** `rank` orders the nodes so that every step the loop can continue with
        goes to a node of lower rank: the graph has no cycle, and `Invoke`
        stops. */
    ghost predicate RankedBy(rank: map<string, nat>) {
      && (forall n :: n in nodes ==> n in rank)
      && (forall n, t :: n in nodes && t in Successors(n) && t in nodes && t != endNode && t != "END" ==>
            t in rank && rank[t] < rank[n])
    }

    /** What `invoke` does from node `current` on state `s`. */
    ghost function Exec(current: string, s: State, rank: map<string, nat>): (r: Reply<Trace>)
      requires RankedBy(rank)
      ensures r.Returned? ==> forall i :: 0 <= i < |r.value.visited| ==>
                r.value.visited[i] in nodes && r.value.visited[i] != endNode
      decreases if current in nodes && current != endNode then rank[current] + 1 else 0
    {
      if current == endNode || current !in nodes then Returned(Trace(s, []))
      else
        var s' := Update(s, nodes[current](s));
        var next :- NextNode(current, s');
        if next == "END" then Returned(Trace(s', [current]))
        else
          var rest :- Exec(next, s', rank);
          Returned(Trace(rest.final, [current] + rest.visited))
    }

    /** One step of `Exec` that ends the run at an "END" edge. */
    lemma ExecLast(current: string, s: State, rank: map<string, nat>)
      requires RankedBy(rank) && current != endNode && current in nodes
      requires NextNode(current, Update(s, nodes[current](s))) == Returned("END")
      ensures Exec(current, s, rank) == Returned(Trace(Update(s, nodes[current](s)), [current]))
    {
    }

    /** One step of `Exec` that moves on to the next node. */
    lemma ExecNext(current: string, s: State, next: string, rank: map<string, nat>, rest: Trace)
      requires RankedBy(rank) && current != endNode && current in nodes
      requires NextNode(current, Update(s, nodes[current](s))) == Returned(next) && next != "END"
      requires Exec(next, Update(s, nodes[current](s)), rank) == Returned(rest)
      ensures Exec(current, s, rank) == Returned(Trace(rest.final, [current] + rest.visited))
    {
    }

    /** A run through two nodes: `a` runs, its edge names `b`, `b` runs, and
        its edge is "END". */
    lemma ExecTwo(a: string, b: string, s0: State, rank: map<string, nat>)
      requires RankedBy(rank) && a != endNode && a in nodes && b != endNode && b in nodes
      requires NextNode(a, Update(s0, nodes[a](s0))) == Returned(b) && b != "END"
      requires var s1 := Update(s0, nodes[a](s0));
               NextNode(b, Update(s1, nodes[b](s1))) == Returned("END")
      ensures var s1 := Update(s0, nodes[a](s0));
              Exec(a, s0, rank) == Returned(Trace(Update(s1, nodes[b](s1)), [a, b]))
    {
      var s1 := Update(s0, nodes[a](s0));
      ExecLast(b, s1, rank);
      ExecNext(a, s0, b, rank, Trace(Update(s1, nodes[b](s1)), [b]));
      assert [a] + [b] == [a, b];
    }

    /** SimpleGraph.invoke: run nodes from the start node, merging each node's
        partial state into a copy of the initial state, until the end node,
        an "END" edge or a name that is not a node. */
    method Invoke(initial: State, ghost rank: map<string, nat>) returns (r: Reply<State>)
      requires RankedBy(rank)
      ensures r == FinalOf(Exec(startNode, initial, rank))
    {
      var state := initial;
      var current := startNode;
      while current != endNode
        invariant FinalOf(Exec(current, state, rank)) == FinalOf(Exec(startNode, initial, rank))
        decreases if current in nodes && current != endNode then rank[current] + 1 else 0
      {
        if current in nodes {
          state := Update(state, nodes[current](state));
          var next :- NextNode(current, state);
          if next == "END" {
            break;
          }
          current := next;
        } else {
          break;
        }
      }
      return Returned(state);
    }
  }

  // ---------------------------------------------------------------- the two graphs

  const SupervisorNodes: map<string, State -> State> :=
    map["classify" := SupervisorClassify, "assign" := SupervisorAssign]

  const SupervisorEdges: map<string, Edge> :=
    map["classify" := Routes(map["route" := "assign"]), "assign" := Next("END")]

  const SwarmNodes: map<string, State -> State> :=
    map["parallel" := SwarmParallel, "consensus" := SwarmConsensus]

  const SwarmEdges: map<string, Edge> :=
    map["parallel" := Next("consensus"), "consensus" := Next("END")]

  /** build_supervisor_graph. */
  method BuildSupervisorGraph() returns (g: SimpleGraph)
    ensures g.nodes == SupervisorNodes && g.edges == SupervisorEdges
    ensures g.startNode == "classify" && g.endNode == "END"
  {
    g := new SimpleGraph(SupervisorNodes, SupervisorEdges, "classify", "END");
  }

  /** build_swarm_graph. */
  method BuildSwarmGraph() returns (g: SimpleGraph)
    ensures g.nodes == SwarmNodes && g.edges == SwarmEdges
    ensures g.startNode == "parallel" && g.endNode == "END"
  {
    g := new SimpleGraph(SwarmNodes, SwarmEdges, "parallel", "END");
  }

  const SupervisorRank: map<string, nat> := map["classify" := 1, "assign" := 0]

  const SwarmRank: map<string, nat> := map["parallel" := 1, "consensus" := 0]

  /** The supervisor graph's "classify" edge never consults supervisor_route:
      its "route" entry is "assign", so assign follows classify whatever the
      label, even one the router would send to "finish". */
  lemma SupervisorGraphSkipsRouter(g: SimpleGraph, s: State)
    requires g.edges == SupervisorEdges
    ensures g.NextNode("classify", s) == Returned("assign")
  {
  }

  /** The supervisor graph has no cycle: classify ranks above assign. */
  lemma SupervisorGraphRanked(g: SimpleGraph)
    requires g.nodes == SupervisorNodes && g.edges == SupervisorEdges && g.endNode == "END"
    ensures g.RankedBy(SupervisorRank)
  {
    assert g.Successors("classify") == {"assign"};
    assert g.Successors("assign") == {"END"};
  }

  /** The swarm graph has no cycle: parallel ranks above consensus. */
  lemma SwarmGraphRanked(g: SimpleGraph)
    requires g.nodes == SwarmNodes && g.edges == SwarmEdges && g.endNode == "END"
    ensures g.RankedBy(SwarmRank)
  {
    assert g.Successors("parallel") == {"consensus"};
    assert g.Successors("consensus") == {"END"};
  }

  /** The state after classify and assign under the mock model. */
  function SupervisorFinal(s0: State): State {
    var s1 := Update(s0, SupervisorClassify(s0));
    Update(s1, SupervisorAssign(s1))
  }

  /** A finished supervisor request on `input`: the research worker was chosen
      and answered, `step` is `step`, and `done` is set. */
  predicate SupervisorAnswered(f: State, input: string, step: int) {
    && Has(f, "task_type", Str("research"))
    && Has(f, "assigned_worker", Str("research"))
    && Has(f, "worker_result", Str(Report(Research, input)))
    && Has(f, "step", Int(step))
    && Has(f, "done", Bool(true))
  }

  /** The supervisor graph runs classify, then assign, and stops. */
  lemma SupervisorGraphTrace(g: SimpleGraph, s0: State)
    requires g.nodes == SupervisorNodes && g.edges == SupervisorEdges
    requires g.startNode == "classify" && g.endNode == "END"
    ensures g.RankedBy(SupervisorRank)
    ensures g.Exec("classify", s0, SupervisorRank) == Returned(Trace(SupervisorFinal(s0), ["classify", "assign"]))
  {
    SupervisorGraphRanked(g);
    var s1 := Update(s0, SupervisorClassify(s0));
    assert g.nodes["classify"](s0) == SupervisorClassify(s0);
    assert g.NextNode("classify", s1) == Returned("assign");
    var s2 := Update(s1, SupervisorAssign(s1));
    assert g.nodes["assign"](s1) == SupervisorAssign(s1);
    assert g.NextNode("assign", s2) == Returned("END");
    g.ExecTwo("classify", "assign", s0, SupervisorRank);
  }

  /** After classify and assign under the mock model, the research worker
      has answered the request. */
  lemma SupervisorFinalHolds(s0: State)
    ensures SupervisorAnswered(SupervisorFinal(s0), GetStr(s0, "user_input", ""), GetInt(s0, "step", 0) + 1)
  {
    var s1 := Update(s0, SupervisorClassify(s0));
    assert Supervisor.Dispatch(s1) == Some(Research);
    assert GetStr(s1, "user_input", "") == GetStr(s0, "user_input", "");
  }

  /** The state the demos start a request from:
      `{"user_input": query, "step": 0, "done": False}`. */
  function InitialState(query: string): State {
    map["user_input" := Str(query), "step" := Int(0), "done" := Bool(false)]
  }

  /** From the demo's initial state, the supervisor graph ends with the
      research worker's answer to the query. */
  lemma SupervisorAnswersQuery(query: string)
    ensures SupervisorAnswered(SupervisorFinal(InitialState(query)), query, 1)
  {
    var s0 := InitialState(query);
    SupervisorFinalHolds(s0);
    assert GetStr(s0, "user_input", "") == query && GetInt(s0, "step", 0) == 0;
  }

  /** One supervisor request as the demo issues it: build the graph and run it
      on the initial state.  With the mock model every request goes to the
      research worker. */
  method SuperviseQuery(query: string) returns (r: Reply<State>)
    ensures r.Returned? && SupervisorAnswered(r.value, query, 1)
  {
    var g := BuildSupervisorGraph();
    SupervisorGraphTrace(g, InitialState(query));
    SupervisorAnswersQuery(query);
    r := g.Invoke(InitialState(query), SupervisorRank);
  }

  /** The state after parallel and consensus. */
  function SwarmFinal(s0: State): State {
    var s1 := Update(s0, SwarmParallel(s0));
    Update(s1, SwarmConsensus(s1))
  }

  /** A finished swarm request on `input`: every worker's report under its own
      label and nothing else, the consensus text, `step` is `step`, and `done`
      is set. */
  predicate SwarmAnswered(f: State, input: string, step: int) {
    && "parallel_results" in f && f["parallel_results"].Table?
    && f["parallel_results"].table.Keys == LabelSet
    && (forall w :: Name(w) in f["parallel_results"].table
                    && f["parallel_results"].table[Name(w)] == Report(w, input))
    && Has(f, "consensus_result", Str(ConsensusReport(input)))
    && Has(f, "step", Int(step))
    && Has(f, "done", Bool(true))
  }

  /** The swarm graph runs parallel, then consensus, and stops. */
  lemma SwarmGraphTrace(g: SimpleGraph, s0: State)
    requires g.nodes == SwarmNodes && g.edges == SwarmEdges
    requires g.startNode == "parallel" && g.endNode == "END"
    ensures g.RankedBy(SwarmRank)
    ensures g.Exec("parallel", s0, SwarmRank) == Returned(Trace(SwarmFinal(s0), ["parallel", "consensus"]))
  {
    SwarmGraphRanked(g);
    var s1 := Update(s0, SwarmParallel(s0));
    assert g.nodes["parallel"](s0) == SwarmParallel(s0);
    assert g.NextNode("parallel", s1) == Returned("consensus");
    var s2 := Update(s1, SwarmConsensus(s1));
    assert g.nodes["consensus"](s1) == SwarmConsensus(s1);
    assert g.NextNode("consensus", s2) == Returned("END");
    g.ExecTwo("parallel", "consensus", s0, SwarmRank);
  }

  /** After parallel and consensus, every worker's report is stored under its
      own label and the consensus text quotes the request. */
  lemma SwarmFinalHolds(s0: State)
    ensures SwarmAnswered(SwarmFinal(s0), GetStr(s0, "user_input", ""), GetInt(s0, "step", 0) + 1)
  {
    var input := GetStr(s0, "user_input", "");
    var s1 := Update(s0, SwarmParallel(s0));
    var f := SwarmFinal(s0);
    SwarmParallelKeys(s0);
    assert GetStr(s1, "user_input", "") == input;
    assert f["parallel_results"] == SwarmParallel(s0)["parallel_results"];
    forall w
      ensures Name(w) in f["parallel_results"].table && f["parallel_results"].table[Name(w)] == Report(w, input)
    {
      SwarmParallelReport(s0, w);
    }
  }

  /** One swarm request as the demo issues it: every worker's report under its
      own label, and the consensus text for the request. */
  method SwarmQuery(query: string) returns (r: Reply<State>)
    ensures r.Returned? && SwarmAnswered(r.value, query, 1)
  {
    var g := BuildSwarmGraph();
    SwarmGraphTrace(g, InitialState(query));
    SwarmAnswersQuery(query);
    r := g.Invoke(InitialState(query), SwarmRank);
  }

  /** From the demo's initial state, the swarm graph ends with every worker's
      report and the consensus for the query. */
  lemma SwarmAnswersQuery(query: string)
    ensures SwarmAnswered(SwarmFinal(InitialState(query)), query, 1)
  {
    var s0 := InitialState(query);
    SwarmFinalHolds(s0);
    assert GetStr(s0, "user_input", "") == query && GetInt(s0, "step", 0) == 0;
  }
}
