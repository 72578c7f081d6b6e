/** The supervisor pipeline that langgraph-supervisor-swarm.py,
    supervisor-swarm-simple.py, async-supervisor-swarm.py and
    test-supervisor-swarm.py each define with the same text: classify the
    request with the model, route on the label, and dispatch to the one worker
    registered for it.  The scripts differ only in the model and the workers,
    which are parameters here:
    - `classifier(user_input)` is the model call on the classification prompt;
    - `run(w, user_input)` is the worker registered for `w`. */
module Supervisor {
  import opened Foreign
  import opened GraphState
  import opened Labels
  import Text

  /** The fixed answer for a label with no registered worker. */
  const Apology: string := "抱歉，我无法处理这种类型的任务。"

  /** The partial state `supervisor_classify` returns once the model's reply
      has been normalised to `taskType`. */
  function Classified(s: State, taskType: string): State {
    map["task_type" := Str(taskType), "assigned_worker" := Str(taskType), "step" := Int(GetInt(s, "step", 0) + 1)]
  }

  /** supervisor_classify: the trimmed, lower-cased reply becomes both the task
      type and the assigned worker, and `step` goes up by one; an exception of
      the model call ends the request. */
  function Classify(s: State, classifier: string -> Reply<string>): (r: Reply<State>)
    ensures r.Raised? <==> classifier(GetStr(s, "user_input", "")).Raised?
    ensures r.Returned? ==> r.value.Keys == {"task_type", "assigned_worker", "step"}
    ensures r.Returned? ==> r.value["task_type"] == r.value["assigned_worker"]
    ensures r.Returned? ==> r.value["step"] == Int(GetInt(s, "step", 0) + 1)
    ensures r.Returned? ==> r.value["task_type"] == Str(Text.Normalize(classifier(GetStr(s, "user_input", "")).value))
  {
    var reply :- classifier(GetStr(s, "user_input", ""));
    Returned(Classified(s, Text.Normalize(reply)))
  }

  /** supervisor_route: "assign" exactly for the four labels; a missing or
      unknown label gives "finish". */
  function Route(s: State): (r: string)
    ensures r == "assign" || r == "finish"
    ensures r == "assign" <==> Parse(GetStr(s, "task_type", "")).Some?
  {
    if GetStr(s, "task_type", "") in Names then "assign" else "finish"
  }

  /** The worker `supervisor_assign` calls: `state.get("assigned_worker",
      "analysis")` looked up in the dispatch dict. */
  function Dispatch(s: State): Option<Worker> {
    Parse(GetStr(s, "assigned_worker", "analysis"))
  }

  function Assigned(result: string): State {
    map["worker_result" := Str(result), "done" := Bool(true)]
  }

  /** supervisor_assign: run the registered worker on `user_input`, or answer
      with the apology when the label has none; `done` is set either way. */
  function Assign(s: State, run: (Worker, string) -> Reply<string>): (r: Reply<State>)
    ensures r.Returned? ==> r.value.Keys == {"worker_result", "done"} && r.value["done"] == Bool(true)
    ensures Dispatch(s).None? ==> r == Returned(Assigned(Apology))
    ensures r.Raised? <==> Dispatch(s).Some? && run(Dispatch(s).value, GetStr(s, "user_input", "")).Raised?
  {
    match Dispatch(s)
    case None => Returned(Assigned(Apology))
    case Some(w) =>
      var result :- run(w, GetStr(s, "user_input", ""));
      Returned(Assigned(result))
  }

  /** A label's registered worker is the one that runs, and what any other
      worker would do does not matter. */
  lemma AssignRunsOnlyRegisteredWorker(s: State, w: Worker, run: (Worker, string) -> Reply<string>,
                                       other: (Worker, string) -> Reply<string>)
    requires GetStr(s, "assigned_worker", "analysis") == Name(w)
    requires other(w, GetStr(s, "user_input", "")) == run(w, GetStr(s, "user_input", ""))
    ensures Assign(s, other) == Assign(s, run)
    ensures run(w, GetStr(s, "user_input", "")).Returned? ==>
              Assign(s, run) == Returned(Assigned(run(w, GetStr(s, "user_input", "")).value))
  {
    ParseName(w);
  }

  /** Without an `assigned_worker` key, `supervisor_assign` falls back to the
      analysis worker. */
  lemma AssignDefaultsToAnalysis(s: State)
    requires "assigned_worker" !in s
    ensures Dispatch(s) == Some(Analysis)
  {
  }

  /** Once classify has written the label, the router and the dispatcher agree:
      the graph only reaches assign for a label that has a worker, so the
      apology branch cannot be taken inside the graph. */
  lemma RouteAgreesWithDispatch(s: State, taskType: string)
    ensures (Route(Update(s, Classified(s, taskType))) == "assign")
              == Dispatch(Update(s, Classified(s, taskType))).Some?
  {
    var s1 := Update(s, Classified(s, taskType));
    assert GetStr(s1, "task_type", "") == taskType;
    assert GetStr(s1, "assigned_worker", "analysis") == taskType;
  }

  /** A worker's label is already normalised: `strip().lower()` leaves it as it is. */
  lemma NormalizeName(w: Worker)
    ensures Text.Normalize(Name(w)) == Name(w)
  {
    var n := Name(w);
    assert forall i :: 0 <= i < |n| ==> 'a' <= n[i] <= 'z';
    Text.NormalizeLowercase(n);
  }

  /** The outcome of one request: the final state and the workers that ran. */
  datatype Run = Run(final: State, invoked: seq<Worker>)

  /** build_supervisor_graph: START -> classify -> (assign -> END | END).
      The `invoked` trace is built here, one entry per assign, so its length
      bound is bookkeeping; that the worker run is the dispatched one and
      alone decides the outcome is `SuperviseRunsAtMostOneWorker`. */
  function Supervise(s0: State, classifier: string -> Reply<string>,
                     run: (Worker, string) -> Reply<string>): (r: Reply<Run>)
    ensures classifier(GetStr(s0, "user_input", "")).Raised? ==>
              r == Raised(classifier(GetStr(s0, "user_input", "")).message)
    ensures r.Returned? ==> |r.value.invoked| <= 1
  {
    var u :- Classify(s0, classifier);
    AfterClassify(Update(s0, u), run)
  }

  /** The graph after classify: the router's choice, then assign or END. */
  function AfterClassify(s1: State, run: (Worker, string) -> Reply<string>): (r: Reply<Run>)
    ensures r.Returned? ==> |r.value.invoked| <= 1
    ensures r.Returned? && r.value.invoked != [] ==>
              Route(s1) == "assign" && Dispatch(s1) == Some(r.value.invoked[0])
    ensures Route(s1) == "finish" ==> r == Returned(Run(s1, []))
  {
    if Route(s1) == "assign" then
      var a :- Assign(s1, run);
      Returned(Run(Update(s1, a), if Dispatch(s1).Some? then [Dispatch(s1).value] else []))
    else
      Returned(Run(s1, []))
  }

  /** One request runs at most one worker: for a reply that normalises to a
      worker's label exactly that worker runs and its reply is stored with
      `done` set; for any other reply the graph finishes after classify with
      no worker run and `worker_result` and `done` as they were. */
  lemma SuperviseRunsAtMostOneWorker(s0: State, classifier: string -> Reply<string>,
                                     run: (Worker, string) -> Reply<string>, reply: string)
    requires classifier(GetStr(s0, "user_input", "")) == Returned(reply)
    ensures Parse(Text.Normalize(reply)).None? ==>
              Unrouted(Supervise(s0, classifier, run), s0, Text.Normalize(reply))
    ensures forall w :: Parse(Text.Normalize(reply)) == Some(w) ==>
              RanOnly(Supervise(s0, classifier, run), w, run(w, GetStr(s0, "user_input", "")))
  {
    SuperviseClassifies(s0, classifier, run, reply);
    AfterClassifyOnLabel(s0, run, Text.Normalize(reply));
  }

  /** Once the model replied, the graph goes on from the state classify left. */
  lemma SuperviseClassifies(s0: State, classifier: string -> Reply<string>,
                            run: (Worker, string) -> Reply<string>, reply: string)
    requires classifier(GetStr(s0, "user_input", "")) == Returned(reply)
    ensures Supervise(s0, classifier, run) == AfterClassify(Update(s0, Classified(s0, Text.Normalize(reply))), run)
  {
  }

  /** What the graph does after classify stored `taskType`. */
  lemma AfterClassifyOnLabel(s0: State, run: (Worker, string) -> Reply<string>, taskType: string)
    ensures Parse(taskType).None? ==> Unrouted(AfterClassify(Update(s0, Classified(s0, taskType)), run), s0, taskType)
    ensures forall w :: Parse(taskType) == Some(w) ==>
              RanOnly(AfterClassify(Update(s0, Classified(s0, taskType)), run), w, run(w, GetStr(s0, "user_input", "")))
  {
    var s1 := Update(s0, Classified(s0, taskType));
    assert GetStr(s1, "user_input", "") == GetStr(s0, "user_input", "");
    if Parse(taskType).None? {
      UnroutedAfterClassify(s0, taskType, run);
    } else {
      assert GetStr(s1, "task_type", "") == taskType;
      assert GetStr(s1, "assigned_worker", "analysis") == taskType;
      RoutedAfterClassify(s1, run, Parse(taskType).value);
    }
  }

  /** The run finished after classify: no worker ran, the label is stored and
      the assign node's keys are as they were in `s0`. */
  predicate Unrouted(r: Reply<Run>, s0: State, taskType: string) {
    && r.Returned?
    && r.value.invoked == []
    && Has(r.value.final, "task_type", Str(taskType))
    && ("worker_result" in r.value.final <==> "worker_result" in s0)
    && ("worker_result" in s0 ==> r.value.final["worker_result"] == s0["worker_result"])
    && ("done" in r.value.final <==> "done" in s0)
    && ("done" in s0 ==> r.value.final["done"] == s0["done"])
  }

  /** The run went through worker `w` alone: its exception ends the request,
      or its reply is stored with `done` set. */
  predicate RanOnly(r: Reply<Run>, w: Worker, answer: Reply<string>) {
    && (answer.Raised? ==> r == Raised(answer.message))
    && (answer.Returned? ==>
          && r.Returned?
          && r.value.invoked == [w]
          && Has(r.value.final, "worker_result", Str(answer.value))
          && Has(r.value.final, "done", Bool(true)))
  }

  /** A label without a worker ends the graph after classify. */
  lemma UnroutedAfterClassify(s0: State, taskType: string, run: (Worker, string) -> Reply<string>)
    requires Parse(taskType).None?
    ensures Unrouted(AfterClassify(Update(s0, Classified(s0, taskType)), run), s0, taskType)
  {
    var s1 := Update(s0, Classified(s0, taskType));
    assert GetStr(s1, "task_type", "") == taskType;
  }

  /** Once the label of worker `w` is stored, the rest of the graph runs `w`
      and only `w`. */
  lemma RoutedAfterClassify(s1: State, run: (Worker, string) -> Reply<string>, w: Worker)
    requires GetStr(s1, "task_type", "") == Name(w) && GetStr(s1, "assigned_worker", "analysis") == Name(w)
    ensures RanOnly(AfterClassify(s1, run), w, run(w, GetStr(s1, "user_input", "")))
  {
    ParseName(w);
    assert Route(s1) == "assign" && Dispatch(s1) == Some(w);
  }
}
