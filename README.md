# Supervisor, swarm, question-router, planner and ReAct workflows

This project models the workflow demos of a collection of LangGraph
examples, and proves properties of that model. Each demo is a graph of node
functions over a state dictionary (a `TypedDict` with optional keys). Each
node reads keys with `state.get(key, default)` and returns a partial
dictionary. The graph merges that partial dictionary into the state and picks
the next node.

- **Supervisor** (`Supervisor`, shared by four scripts):
  - a chat model classifies the request;
  - the reply, stripped and lower-cased, becomes the task type;
  - a router sends the four known labels to an assign node, which runs the
    one worker registered under the label;
  - any other label ends the graph.
- **Swarm** (`Swarm`):
  - every worker runs on the same request;
  - the replies are collected in a dictionary keyed by worker name, and a
    worker that raises leaves a `处理失败: …` placeholder under its own key;
  - a consensus node quotes the collected replies back by key.
- **Variants:**
  - `TestSupervisorSwarm` is the self-contained script. It has a
    keyword-matching mock model, fixed report templates and its own graph
    interpreter, `SimpleGraph`, which is a class with an imperative `Invoke`
    loop.
  - `LanggraphSupervisorSwarm`: only the research worker guards its body.
  - `SupervisorSwarmSimple`: no worker guards its body.
  - `SupervisorSwarmDemo`: the object-style `SupervisorAgent` and
    `SwarmIntelligence` classes.
  - `AsyncSupervisorSwarm`: every worker is guarded, and the swarm pairs
    `asyncio.gather` results with names by position.
- **`QuestionAgent`** (planner-test/agent2.py): a keyword router that answers
  with the time, a canned forecast, or a general reply.
- **`StudyPlanner`** (planner-test/main.py): splits a goal into three
  sub-tasks and numbers them as a day-by-day plan.
- **`ReactAgent`** (_examples_langgraph/react_stategraph_react.py): a
  think/act loop around a chat model and a search tool, with at most three
  tool steps.

Calls into code the scripts do not contain are function parameters:
- the chat models, the search tools and `json.loads`;
- the worker bodies built on them;
- the clock.

Such a call returns `Reply<T>`: `Returned(value)`, or `Raised(message)` for
an exception. That way every `try`/`except` in the scripts, and every
exception they let escape, is explicit in the model.

## Model

| member | source | states |
|---|---|---|
| GraphState.Update | langgraph-supervisor-swarm.py:246-262 | merging a node's partial state overwrites exactly the returned keys and keeps every other key |
| Labels.Parse | langgraph-supervisor-swarm.py:90-97 | a label selects a worker exactly when it is one of the four dispatch keys, and the worker selected is the one registered under that label |
| Labels.ParseName | langgraph-supervisor-swarm.py:90-97 | every worker's own label selects that worker, and that label is in the router's list |
| Labels.WorkersKeys | langgraph-supervisor-swarm.py:195-200 | the dispatch dict has the four labels as keys, each once, and each key is the label of the worker stored under it |
| Labels.IndexOf | langgraph-supervisor-swarm.py:195-200 | every worker sits in the dispatch dict under its own label |
| Text.Strip | langgraph-supervisor-swarm.py:76 | `str.strip()`: the result is no longer than the input and neither starts nor ends with whitespace, and it is empty exactly when the input is all whitespace |
| Text.TrimStart | langgraph-supervisor-swarm.py:76 | the result is a suffix of the input, only whitespace was removed, and it does not start with whitespace |
| Text.TrimEnd | langgraph-supervisor-swarm.py:76 | the result is a prefix of the input, only whitespace was removed, and it does not end with whitespace |
| Text.NormalizeIdempotent | langgraph-supervisor-swarm.py:76 | `strip().lower()` applied to its own result changes nothing |
| Text.LowerIdempotent | langgraph-supervisor-swarm.py:76 | lower-casing twice is lower-casing once |
| Text.LowerKeepsTrimmed | langgraph-supervisor-swarm.py:76 | lower-casing a stripped text leaves it stripped |
| Text.NormalizeLowercase | langgraph-supervisor-swarm.py:76 | a text of lower-case ASCII letters is already normalised |
| Text.NatToString | planner-test/main.py:21 | the decimal rendering of a day number is a non-empty run of digits with no leading zero |
| Text.DigitsValueOfNatToString | planner-test/main.py:21 | reading the decimal rendering back gives the number |
| ModelWorkers.Body | langgraph-supervisor-swarm.py:119-188 | the research worker searches first and asks the model with the results, and an exception of the search ends it; every other worker asks the model directly |
| ModelWorkers.Guarded | langgraph-supervisor-swarm.py:121-138 | a guarded body never raises: it answers with the body's reply, or with the error text followed by the exception message |
| Supervisor.Classify | langgraph-supervisor-swarm.py:57-82 | classify fails exactly when the model call raises; otherwise it writes the model reply, stripped and lower-cased, under both task_type and assigned_worker, and step is one more than before |
| Supervisor.Route | langgraph-supervisor-swarm.py:110-115 | the router answers only "assign" or "finish", and "assign" exactly when task_type is a label with a worker |
| Supervisor.Assign | langgraph-supervisor-swarm.py:84-108 | assign always sets done; an unknown label gets the apology; assign raises exactly when the dispatched worker raises |
| Supervisor.AssignRunsOnlyRegisteredWorker | langgraph-supervisor-swarm.py:96-102 | only the worker registered for the label affects the outcome, and its reply becomes worker_result |
| Supervisor.AssignDefaultsToAnalysis | langgraph-supervisor-swarm.py:86 | without assigned_worker, the analysis worker is dispatched |
| Supervisor.RouteAgreesWithDispatch | langgraph-supervisor-swarm.py:246-262 | after classify, the router sends the graph to assign exactly when the dispatcher has a worker for the label, so the apology branch cannot be reached through the graph |
| Supervisor.Supervise | langgraph-supervisor-swarm.py:246-262 | a request whose classifying model call raises ends with that exception, and a request runs at most one worker |
| Supervisor.AfterClassify | langgraph-supervisor-swarm.py:256-260 | after classify, a worker runs only when the router chose assign, and it is the worker the dispatcher selects; when the router chooses finish the graph ends with the state as classify left it |
| Supervisor.NormalizeName | langgraph-supervisor-swarm.py:76 | a worker label survives `strip().lower()` unchanged |
| Supervisor.SuperviseRunsAtMostOneWorker | langgraph-supervisor-swarm.py:246-262 | one supervisor request runs the worker of the normalised label and no other, storing its reply with done set or ending with its exception; any other reply ends the graph after classify with no worker run and worker_result and done as they were |
| Supervisor.SuperviseClassifies | langgraph-supervisor-swarm.py:246-262 | once the model has replied, the graph continues from the state classify left |
| Supervisor.AfterClassifyOnLabel | langgraph-supervisor-swarm.py:246-262 | after classify has stored a label, the graph finishes (unknown label) or runs that label's worker alone |
| Supervisor.UnroutedAfterClassify | langgraph-supervisor-swarm.py:256-259 | a label without a worker ends the graph with no worker run and the assign keys untouched |
| Supervisor.RoutedAfterClassify | langgraph-supervisor-swarm.py:256-260 | a stored worker label leads to assign, which runs exactly that worker |
| Swarm.Collected | langgraph-supervisor-swarm.py:202-208 | every visited worker name is a key of the results dict |
| Swarm.CollectedKeys | langgraph-supervisor-swarm.py:202-208 | the results dict has exactly the workers' names as keys |
| Swarm.CollectedAt | langgraph-supervisor-swarm.py:202-208 | each name holds its own worker's reply, or the failure placeholder when that worker raised |
| Swarm.CollectedOrderFree | langgraph-supervisor-swarm.py:202-208 | the results dict does not depend on the order the workers are visited in |
| Swarm.CollectedIncluded | langgraph-supervisor-swarm.py:202-208 | collecting a subset of the entries gives a sub-dict with the same values |
| Swarm.Placeholder | langgraph-supervisor-swarm.py:204-208 | a worker's reply is stored as it is; an exception is stored as "处理失败: " followed by its message |
| Swarm.ParallelUpdate | langgraph-supervisor-swarm.py:210-213 | the fan-out writes only parallel_results, as a dict, and step one more than before |
| Swarm.Parallel | langgraph-supervisor-swarm.py:190-213 | the fan-out loop, with each worker's exception caught separately, returns the results and step increased by one, the partial state `ParallelUpdate` specifies |
| Swarm.CollectedStep | langgraph-supervisor-swarm.py:203-208 | one loop iteration stores the visited worker's outcome under its name |
| Swarm.ParallelUpdateHolds | langgraph-supervisor-swarm.py:190-213 | the fan-out's results are keyed by the table's names, each holding that worker's reply, or "处理失败: " and the message when it raised |
| Swarm.ParallelUpdateKeys | langgraph-supervisor-swarm.py:190-213 | the fan-out stores results under exactly the table's names |
| Swarm.ParallelUpdateAt | langgraph-supervisor-swarm.py:190-213 | the `i`-th worker's outcome is stored under its name |
| Swarm.Views | langgraph-supervisor-swarm.py:215-229 | `parallel_results.get(name, '')`: one view per quoted name, holding that name's stored result, or '' when the name has none |
| Swarm.Consensus | langgraph-supervisor-swarm.py:215-244 | consensus fails exactly when the synthesising model call raises; otherwise consensus_result is that call's answer on the request and the quoted results, and done is set |
| Swarm.JoinReadsFanOut | langgraph-supervisor-swarm.py:215-229 | after the fan-out, the consensus reads each worker's own reply or placeholder by name, and no name falls back to '' |
| Swarm.Pipeline | langgraph-supervisor-swarm.py:264-277 | the swarm graph fails exactly when the synthesising call raises; otherwise it ends with done set, the collected results under parallel_results, and the synthesising call's answer on those results under consensus_result |
| Swarm.PipelineIsolatesFailure | langgraph-supervisor-swarm.py:264-277 | a raising worker does not stop the swarm: its key holds the placeholder, the others hold their own replies, and consensus still sets done |
| Swarm.PipelineKeepsOtherKeys | langgraph-supervisor-swarm.py:264-277 | the swarm graph changes no key besides parallel_results, step, consensus_result and done |
| TestSupervisorSwarm.MockLabel | test-supervisor-swarm.py:40-58 | the mock model always answers one of the four labels |
| TestSupervisorSwarm.MockLabelIsFirstMatch | test-supervisor-swarm.py:49-58 | the mock's if/elif chain is a first-match search of its keyword table, falling back to "analysis" |
| TestSupervisorSwarm.MockInvoke | test-supervisor-swarm.py:40-58 | the mock answers a label for any message list, and "analysis" for an empty one |
| TestSupervisorSwarm.PromptMentionsSearch | test-supervisor-swarm.py:77-88 | the classification prompt contains "搜索" whatever the user typed |
| TestSupervisorSwarm.SupervisorClassify | test-supervisor-swarm.py:73-97 | under the mock model, classify writes "research" under task_type and assigned_worker and increases step by one (that this is the classify node is `SupervisorClassifyIsClassify`) |
| TestSupervisorSwarm.SupervisorClassifyIsClassify | test-supervisor-swarm.py:73-97 | with the mock model, classify stores "research" for every request |
| TestSupervisorSwarm.SupervisorAssign | test-supervisor-swarm.py:99-123 | assign sets done and stores the dispatched worker's report for a known label, or the apology for an unknown one |
| TestSupervisorSwarm.SwarmParallel | test-supervisor-swarm.py:226-249 | the fan-out writes only parallel_results, as a dict, and step one more than before |
| TestSupervisorSwarm.SwarmParallelKeys | test-supervisor-swarm.py:226-249 | the fan-out writes parallel_results and step only, with exactly the four labels as result keys, and step one more |
| TestSupervisorSwarm.SwarmParallelReport | test-supervisor-swarm.py:226-249 | every worker's report, never a placeholder, sits under its own label |
| TestSupervisorSwarm.SwarmConsensus | test-supervisor-swarm.py:251-282 | consensus writes consensus_result and sets done |
| TestSupervisorSwarm.ConsensusIgnoresResults | test-supervisor-swarm.py:251-282 | the consensus text depends only on the request, not on parallel_results |
| TestSupervisorSwarm.SimpleGraph.constructor | test-supervisor-swarm.py:289-293 | the interpreter keeps the node table, the edge table, the start node and the end node it was given |
| TestSupervisorSwarm.SimpleGraph.NextNode | test-supervisor-swarm.py:305-311 | the routing step names only a node the edge entry allows; it raises exactly for an edge of the wrong kind; a "route" entry after classify asks supervisor_route, and a missing classify entry gives "assign" |
| TestSupervisorSwarm.SimpleGraph.Exec | test-supervisor-swarm.py:295-320 | a completed run visits only nodes of the graph and never runs the end node |
| TestSupervisorSwarm.SimpleGraph.ExecLast | test-supervisor-swarm.py:300-316 | a node whose edge is "END" is the last one run |
| TestSupervisorSwarm.SimpleGraph.ExecNext | test-supervisor-swarm.py:300-317 | after a node runs, the run continues from the node its edge names |
| TestSupervisorSwarm.SimpleGraph.ExecTwo | test-supervisor-swarm.py:300-317 | a two-node run merges both nodes' partial states in order and visits exactly those two nodes |
| TestSupervisorSwarm.SimpleGraph.Invoke | test-supervisor-swarm.py:295-320 | the interpreter loop returns the final state of the node-by-node run `Exec` defines |
| TestSupervisorSwarm.BuildSupervisorGraph | test-supervisor-swarm.py:322-334 | the supervisor graph has the classify and assign nodes, the route table {"route": "assign"}, and runs from classify to END |
| TestSupervisorSwarm.BuildSwarmGraph | test-supervisor-swarm.py:336-348 | the swarm graph runs parallel then consensus, from parallel to END |
| TestSupervisorSwarm.SupervisorGraphSkipsRouter | test-supervisor-swarm.py:308-311 | classify is always followed by assign: supervisor_route is never consulted, because the route entry is "assign" |
| TestSupervisorSwarm.SupervisorGraphRanked | test-supervisor-swarm.py:322-334 | the supervisor graph has no cycle, so `invoke` stops |
| TestSupervisorSwarm.SwarmGraphRanked | test-supervisor-swarm.py:336-348 | the swarm graph has no cycle, so `invoke` stops |
| TestSupervisorSwarm.SupervisorGraphTrace | test-supervisor-swarm.py:295-334 | the supervisor graph runs classify, then assign, and stops |
| TestSupervisorSwarm.SupervisorFinalHolds | test-supervisor-swarm.py:73-123 | after classify and assign, research is the task type and assigned worker, its report is the worker result, step is one more and done is set |
| TestSupervisorSwarm.SupervisorAnswersQuery | test-supervisor-swarm.py:73-123 | from the demo's initial state, the research worker's report answers the query at step 1 |
| TestSupervisorSwarm.SuperviseQuery | test-supervisor-swarm.py:295-334 | building the supervisor graph and invoking it on a query returns the research worker's report with done set and step 1 |
| TestSupervisorSwarm.SwarmGraphTrace | test-supervisor-swarm.py:295-348 | the swarm graph runs parallel, then consensus, and stops |
| TestSupervisorSwarm.SwarmFinalHolds | test-supervisor-swarm.py:226-282 | after parallel and consensus, each label holds its worker's report, the consensus quotes the request, step is one more and done is set |
| TestSupervisorSwarm.SwarmAnswersQuery | test-supervisor-swarm.py:226-282 | from the demo's initial state, the swarm answers the query with all four reports and the consensus at step 1 |
| TestSupervisorSwarm.SwarmQuery | test-supervisor-swarm.py:295-348 | building the swarm graph and invoking it on a query returns all four reports under their labels, the consensus, done and step 1 |
| LanggraphSupervisorSwarm.RunWorker | langgraph-supervisor-swarm.py:119-188 | the research worker never raises, and the other three run their bare bodies |
| LanggraphSupervisorSwarm.ResearchRequestCompletes | langgraph-supervisor-swarm.py:119-138 | a request classified as research always completes with the model's report or the research error text, and done set |
| LanggraphSupervisorSwarm.UnguardedWorkerFailureEscapes | langgraph-supervisor-swarm.py:140-188 | when an analysis, creative or technical worker raises, the supervisor request ends with that exception |
| LanggraphSupervisorSwarm.SwarmResearchEntry | langgraph-supervisor-swarm.py:190-213 | in the swarm, the research entry is the guarded answer, and the other three hold their reply or the placeholder |
| SupervisorSwarmSimple.AssignRaisesWhereSwarmCatches | supervisor-swarm-simple.py:138-195 | the same worker exception escapes assign_worker but is stored as "处理失败: " and the message by parallel_processing |
| SupervisorSwarmSimple.SharedStateKeepsSupervisorKeys | supervisor-swarm-simple.py:26-37 | the two graphs share the `TaskState` schema; the swarm writes none of its supervisor keys, so on any state task_type, assigned_worker and worker_result keep their presence and value |
| SupervisorSwarmDemo.SupervisorAgent.constructor | supervisor-swarm-demo.py:64-70 | the worker table has exactly the four labels, each selecting its own worker |
| SupervisorSwarmDemo.SupervisorAgent.ClassifyTask | supervisor-swarm-demo.py:72-96 | classify_task fails exactly when the model raises; otherwise it writes the model reply, stripped and lower-cased, to both task_type and assigned_agent, and step is one more |
| SupervisorSwarmDemo.SupervisorAgent.AssignTask | supervisor-swarm-demo.py:98-116 | for a label in the table, the registered worker's reply on user_input is final_result and the only worker_results entry, under the label, and the worker's exception ends the call; any other label yields the apology and no worker_results; done is set |
| SupervisorSwarmDemo.SupervisorAgent.RouteAgreesWithWorkers | supervisor-swarm-demo.py:283-287 | the router, which reads task_type, sends the graph to assign exactly when assigned_agent is in the agent's table |
| SupervisorSwarmDemo.SwarmIntelligence.constructor | supervisor-swarm-demo.py:215-221 | the swarm holds the four agents under their role names, in order |
| SupervisorSwarmDemo.SwarmIntelligence.ParallelProcessing | supervisor-swarm-demo.py:223-239 | the fan-out's results are keyed by exactly the four role names, each holding that agent's outcome, and step is one more |
| SupervisorSwarmDemo.SwarmIntelligence.ConsensusBuilding | supervisor-swarm-demo.py:241-269 | consensus fails exactly when the model raises on the results quoted by role name; otherwise consensus_result is the model's answer to them, and done is set |
| SupervisorSwarmDemo.AgentsDistinct | supervisor-swarm-demo.py:215-221 | the role names are distinct, and they are the keys the consensus quotes, in order |
| SupervisorSwarmDemo.ConsensusReadsParallelResults | supervisor-swarm-demo.py:223-260 | consensus_building reads each agent's own answer or placeholder, and never the '' default |
| AsyncSupervisorSwarm.AsyncWorker | async-supervisor-swarm.py:57-140 | each async worker never raises: it answers its body's reply, or its own error text followed by the message when its body raised |
| AsyncSupervisorSwarm.Gather | async-supervisor-swarm.py:228 | `gather(..., return_exceptions=True)` returns one outcome per task, in task order |
| AsyncSupervisorSwarm.GatherParallel | async-supervisor-swarm.py:206-241 | building tasks and names, gathering, then zipping by position gives the same partial state as the sequential fan-out, for any worker table |
| AsyncSupervisorSwarm.AssignNeverRaises | async-supervisor-swarm.py:171-195 | async assign never raises and always sets done |
| AsyncSupervisorSwarm.SwarmHoldsGuardedAnswers | async-supervisor-swarm.py:206-241 | every swarm entry is that worker's reply or its own error text, never the placeholder of a caught exception |
| QuestionAgent.QuestionType | planner-test/agent2.py:16-23 | the type is "time" exactly when the lower-cased text has a time keyword, "weather" exactly when it has a weather keyword and no time keyword, and always a label the edge maps |
| QuestionAgent.QuestionTypeIsFirstMatch | planner-test/agent2.py:17-23 | the chain is a first-match search of the keyword table, with "general" as the fallback |
| QuestionAgent.UserInput | planner-test/agent2.py:13-14 | `state['user_input']` raises exactly when the key is missing or its value is not a string, and otherwise gives the request |
| QuestionAgent.ReceiveInput | planner-test/agent2.py:12-14 | receive_input fails exactly when user_input is missing or not a string, and otherwise leaves the state as it was |
| QuestionAgent.ClassifyType | planner-test/agent2.py:16-26 | classify_type fails exactly when user_input is missing or not a string, and otherwise stores the question type of the request |
| QuestionAgent.AnswerWeather | planner-test/agent2.py:28-31 | answer_weather writes only the answer, the canned forecast, whatever the request |
| QuestionAgent.AnswerTime | planner-test/agent2.py:33-36 | answer_time writes only the answer, which quotes the clock reading |
| QuestionAgent.AnswerGeneral | planner-test/agent2.py:38-39 | the general answer quotes the request |
| QuestionAgent.Ask | planner-test/agent2.py:46-64 | a request fails exactly when user_input is missing or not a string; otherwise it ends with a question type and an answer |
| QuestionAgent.AskAnswersEveryQuestion | planner-test/agent2.py:46-64 | every request gets an answer: the clock for time, the forecast for weather, and a reply quoting the request otherwise |
| StudyPlanner.Subtasks | planner-test/main.py:11-16 | there are three sub-tasks, and each names the goal |
| StudyPlanner.TaskAnalyzer | planner-test/main.py:10-17 | task_analyzer writes only sub_tasks, each naming user_goal, with "未知任务" when the goal is missing |
| StudyPlanner.Entry | planner-test/main.py:21 | a plan line starts with "Day " and ends with its task |
| StudyPlanner.Plan | planner-test/main.py:21 | one line per task, in task order, line `i` being the entry for position `i` |
| StudyPlanner.Planner | planner-test/main.py:19-22 | the plan has one line per sub-task, none without sub-tasks, and line `i` reads back as day `i + 1` holding sub-task `i` |
| StudyPlanner.DigitSpan | planner-test/main.py:21 | the span is the longest run of digits at the start of the text |
| StudyPlanner.ParseEntry | planner-test/main.py:21 | a line that reads back starts with "Day " and ends with the task it gives |
| StudyPlanner.ParseEntryOfEntry | planner-test/main.py:21 | a plan line reads back as its day number, counted from one, and its task unchanged |
| StudyPlanner.PlanNumbersTasks | planner-test/main.py:21 | line `i` of the plan is day `i + 1` holding sub-task `i` |
| StudyPlanner.AcceptGoal | planner-test/main.py:38-43 | the goal is refused exactly when it is all whitespace; otherwise the stripped goal starts the state |
| StudyPlanner.Run | planner-test/main.py:25-35 | the graph adds sub_tasks and plan to the state and keeps its other keys; the sub-tasks are those of the goal (or of the default goal), and the plan has three days |
| StudyPlanner.RunPlansThreeDays | planner-test/main.py:25-47 | an accepted goal yields three sub-tasks naming it, and a three-day plan whose day `i + 1` holds sub-task `i` |
| ReactAgent.InstructionsNameTool | _examples_langgraph/react_stategraph_react.py:27-42 | the stripped system prompt ends with the tool whitelist line, and that line names the one tool the router accepts |
| ReactAgent.Input | _examples_langgraph/react_stategraph_react.py:45-51 | node_input keeps the messages and resets step to 0 and done to False, and writes no other key |
| ReactAgent.Turn | _examples_langgraph/react_stategraph_react.py:64-71 | the model's messages speak as the assistant and everything else as the user; a tool result is prefixed with a marker line, the rest are unchanged |
| ReactAgent.Turns | _examples_langgraph/react_stategraph_react.py:64-71 | one turn per message, in order |
| ReactAgent.BuildTranscript | _examples_langgraph/react_stategraph_react.py:63-71 | the loop builds the system prompt followed by one turn per message |
| ReactAgent.Action | _examples_langgraph/react_stategraph_react.py:76-79 | a reply that decodes as JSON is the action; any other reply becomes a final action answering with the reply itself |
| ReactAgent.Think | _examples_langgraph/react_stategraph_react.py:54-82 | think does nothing once done is set; otherwise it fails exactly when the model raises, and appends the stripped reply and stores its action |
| ReactAgent.NodeThink | _examples_langgraph/react_stategraph_react.py:54-82 | node_think's statements compute the think step `Think` specifies |
| ReactAgent.ThinkAppendsReply | _examples_langgraph/react_stategraph_react.py:58-82 | think keeps the given messages as a prefix and adds the reply, preceded by the observation exactly when last_tool_result is non-empty |
| ReactAgent.Route | _examples_langgraph/react_stategraph_react.py:85-89 | the router answers "act" exactly for a tool action naming tavily_search; it raises for a non-object action or a list or dict tool name; otherwise it answers "finish" |
| ReactAgent.Act | _examples_langgraph/react_stategraph_react.py:92-104 | act succeeds only on an action naming the tool whose search returned; it appends the result as a tool message, remembers it, and counts one step |
| ReactAgent.RouteAgreesWithAct | _examples_langgraph/react_stategraph_react.py:85-104 | after the router picks "act", act fails only when the search tool raises |
| ReactAgent.ContinueOrFinish | _examples_langgraph/react_stategraph_react.py:141-142 | the graph goes back to think exactly while fewer than three tool steps were taken |
| ReactAgent.FinishTranscript | _examples_langgraph/react_stategraph_react.py:113-123 | the fallback transcript keeps every message's content, and only the model's messages speak as the assistant |
| ReactAgent.Finish | _examples_langgraph/react_stategraph_react.py:107-126 | finish appends exactly one answer after the messages and sets done; a final action with a non-empty string answer is used as is; otherwise the appended answer is the model's reply to the fallback transcript, and the model's exception ends the run |
| ReactAgent.Round | _examples_langgraph/react_stategraph_react.py:136-146 | a round that acts counts one step, and one that finishes ends the run |
| ReactAgent.AfterThink | _examples_langgraph/react_stategraph_react.py:138 | after think, acting counts one step and finishing ends the run |
| ReactAgent.ThinkKeepsStep | _examples_langgraph/react_stategraph_react.py:54-82 | think leaves the step count alone |
| ReactAgent.ActCountsStep | _examples_langgraph/react_stategraph_react.py:100-104 | act increases the step count by one |
| ReactAgent.FinishEnds | _examples_langgraph/react_stategraph_react.py:125-126 | finish sets done and leaves the model's answer as the last message |
| ReactAgent.RoundsBounded | _examples_langgraph/react_stategraph_react.py:136-146 | from step `k`, the loop takes at most `3 - k` tool steps (one once `k` is already 3), and a completed run ends in finish |
| ReactAgent.Rounds | _examples_langgraph/react_stategraph_react.py:136-146 | the think/act loop, when it completes, ends in finish: done is set and the model's answer is the last message |
| ReactAgent.Agent | _examples_langgraph/react_stategraph_react.py:130-146 | one invocation, when it completes, ends with done set and the answer as the last message |
| ReactAgent.AgentTakesAtMostThreeSteps | _examples_langgraph/react_stategraph_react.py:130-146 | one invocation takes at most three tool steps and ends with done set and the answer as the last message |
| ReactAgent.ThinkOnReply | _examples_langgraph/react_stategraph_react.py:73-82 | think on a model reply appends the stripped reply and stores its decoded action |
| ReactAgent.FinishOnFinalAction | _examples_langgraph/react_stategraph_react.py:110-111 | a final action with a non-empty answer is appended without calling the model |
| ReactAgent.RoundOnFinalAction | _examples_langgraph/react_stategraph_react.py:85-126 | a round whose think yields a final answer goes to finish and appends that answer |
| ReactAgent.AfterThinkOnFinalAction | _examples_langgraph/react_stategraph_react.py:85-126 | a final action is routed to finish, which appends its answer |
| ReactAgent.RoundsOnFinished | _examples_langgraph/react_stategraph_react.py:138 | a round that finishes is the last one |
| ReactAgent.ThinkOnFinalReply | _examples_langgraph/react_stategraph_react.py:73-82 | a reply that decodes to a final action is stored as that action |
| ReactAgent.FirstRoundAnswers | _examples_langgraph/react_stategraph_react.py:54-126 | a first reply that decodes to a final answer ends the loop with no tool step, the reply and the answer appended |
| ReactAgent.RoundsOnFinalAction | _examples_langgraph/react_stategraph_react.py:54-126 | when think yields a final answer, the loop ends there with no tool step and the answer appended after the reply |
| ReactAgent.DirectAnswer | _examples_langgraph/react_stategraph_react.py:45-146 | a model that answers at once ends the run with no tool step, with its reply and the decoded answer as the last two messages |

## Left out

- The chat models, the search tools, `json.loads` and the worker bodies are parameters. The prompts sent to a real model are not modelled word for word: for the classifier and the consensus, the model is a function of the request (and of the quoted results). Only the test script's prompt is spelt out, because its mock model reads it.
- The ReAct system prompts are the two-valued `ReactAgent.Instructions`, with `ReactAgent.InstructionText` giving their text.
- Concurrency: `asyncio.create_task`, `asyncio.to_thread` and `gather` are modelled by their results in task order. Interleavings and timing are not modelled.
- LangGraph itself: graph compilation, checkpointing (`MemorySaver`), thread ids and the reducer machinery. The graphs are modelled as the sequence of node calls their edges define, and a state merge is dictionary update.
- Console I/O, the interactive demo loops, `print`, `performance_test`, `uuid` thread ids and the `main` functions of every script.
- `datetime.now()`: `QuestionAgent.AnswerTime` takes the formatted clock reading as a parameter.
- `show_result` in planner-test/agent2.py is defined but never added to the graph, so it is not modelled.
- A state value of the wrong Python type reads as the `get` default, rather than raising or flowing on as it would in Python (except `user_input` in planner-test/agent2.py, next line).
- `QuestionAgent.UserInput`: a non-string `user_input` raises at once; the source raises only later, at `.lower()` in classify_type (planner-test/agent2.py:17).
- `str.lower()` is modelled for ASCII letters only. `str.strip()` removes Python's full set of whitespace characters (`str.isspace`).
- JSON numbers are integers. Floats, and the `ToolMessage` `tool_call_id` (a random uuid), are not modelled.
- `ReactAgent.Think`: a model reply whose `content` is `None` is not modelled (`result.content or ""` becomes the empty string in the source).
- `ReactAgent.Finish`: a final answer that is a JSON list is accepted by the source (`AIMessage` takes list content) but not modelled, because `Message.content` is a string here; the model raises on every non-string answer. The fallback model's `content` is taken as a string.
- `ReactAgent.Act`: the search result is taken as already converted with `str(obs)`.
- `ReactAgent.DirectAnswer` requires `last_tool_result` to be empty. node_input does not reset that key, so on a thread whose checkpoint holds an earlier observation, node_think re-appends it.
- `ReactAgent.Rounds` is the graph's own loop as a recursive function, bounded by the step count. There is no separate imperative driver.
- `TestSupervisorSwarm.SimpleGraph.Invoke` requires a ranking of the nodes, a ghost witness that the graph has no cycle. For the two graphs the script builds, the ranking is proved (`SupervisorGraphRanked`, `SwarmGraphRanked`). For a cyclic graph the source would loop forever, and that is not modelled.
- The copy of the state made by `initial_state.copy()` and the list copies (`[:]`) are implicit, because states and lists are values in the model.
