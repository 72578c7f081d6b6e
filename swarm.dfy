/** The swarm fan-out and join shared by every swarm variant: all workers run
    on the same input, their replies are collected in a dict keyed by worker
    name, a worker that raises leaves a placeholder under its own key, and the
    consensus step reads the collected replies back by key.

    `table` is the `workers.items()` (or `self.agents.items()`) of the script,
    in insertion order; `run(w, user_input)` is what calling worker `w` gives. */
module Swarm {
  import opened Foreign
  import opened GraphState

  const FailurePrefix: string := "处理失败: "

  /** What the fan-out stores for one worker: its reply, or
      `f"处理失败: {str(e)}"` when it raised. */
  function Placeholder(r: Reply<string>): (p: string)
    ensures r.Returned? ==> p == r.value
    ensures r.Raised? ==> && |p| == |FailurePrefix| + |r.message|
                          && p[..|FailurePrefix|] == FailurePrefix
                          && p[|FailurePrefix|..] == r.message
  {
    match r
    case Returned(v) => v
    case Raised(m) => FailurePrefix + m
  }

  /** The worker names of a table, in order. */
  function Names<W>(table: seq<(string, W)>): seq<string> {
    seq(|table|, i requires 0 <= i < |table| => table[i].0)
  }

  /** The entries of a dict's `items()` have distinct keys. */
  predicate DistinctNames<W>(table: seq<(string, W)>) {
    forall i, j :: 0 <= i < j < |table| ==> table[i].0 != table[j].0
  }

  /** The results dict after the loop has visited the entries of `table` in order. */
  function Collected<W>(table: seq<(string, W)>, input: string, run: (W, string) -> Reply<string>): (r: map<string, string>)
    ensures forall i :: 0 <= i < |table| ==> table[i].0 in r
  {
    if table == [] then map[]
    else
      var last := table[|table| - 1];
      Collected(table[..|table| - 1], input, run)[last.0 := Placeholder(run(last.1, input))]
  }

  /** The collected dict has exactly the table's names as keys. */
  lemma {:induction false} CollectedKeys<W>(table: seq<(string, W)>, input: string, run: (W, string) -> Reply<string>)
    ensures Collected(table, input, run).Keys == set i | 0 <= i < |table| :: table[i].0
  {
    if table != [] {
      var front := table[..|table| - 1];
      CollectedKeys(front, input, run);
      assert forall i :: 0 <= i < |front| ==> front[i] == table[i];
      assert (set i | 0 <= i < |table| :: table[i].0)
          == (set i | 0 <= i < |front| :: front[i].0) + {table[|table| - 1].0};
    }
  }

  /** Each name of the collected dict holds the reply (or the failure
      placeholder) of its own worker. */
  lemma {:induction false} CollectedAt<W>(table: seq<(string, W)>, input: string, run: (W, string) -> Reply<string>)
    requires DistinctNames(table)
    ensures forall i :: 0 <= i < |table| ==>
              Collected(table, input, run)[table[i].0] == Placeholder(run(table[i].1, input))
  {
    if table != [] {
      var front := table[..|table| - 1];
      CollectedAt(front, input, run);
      assert forall i :: 0 <= i < |front| ==> front[i] == table[i];
    }
  }

  /** Arrival order does not matter: collecting the same (name, worker) entries
      in any other order gives the same dict, because each result is stored
      under its own worker's name. */
  lemma CollectedOrderFree<W>(a: seq<(string, W)>, b: seq<(string, W)>, input: string,
                              run: (W, string) -> Reply<string>)
    requires DistinctNames(a) && DistinctNames(b)
    requires multiset(a) == multiset(b)
    ensures Collected(a, input, run) == Collected(b, input, run)
  {
    assert forall x :: x in a <==> x in multiset(a);
    assert forall x :: x in b <==> x in multiset(b);
    CollectedAt(a, input, run);
    CollectedAt(b, input, run);
    CollectedIncluded(a, b, input, run);
    CollectedIncluded(b, a, input, run);
  }

  /** When every entry of `a` is an entry of `b`, each key collected from `a`
      is collected from `b` with the same value. */
  lemma CollectedIncluded<W>(a: seq<(string, W)>, b: seq<(string, W)>, input: string,
                             run: (W, string) -> Reply<string>)
    requires DistinctNames(a) && DistinctNames(b)
    requires forall x :: x in a ==> x in b
    ensures forall k :: k in Collected(a, input, run) ==>
              k in Collected(b, input, run) && Collected(b, input, run)[k] == Collected(a, input, run)[k]
  {
    CollectedKeys(a, input, run);
    CollectedAt(b, input, run);
    forall k | k in Collected(a, input, run)
      ensures k in Collected(b, input, run) && Collected(b, input, run)[k] == Collected(a, input, run)[k]
    {
      var i :| 0 <= i < |a| && a[i].0 == k;
      assert a[i] in b;
      var j :| 0 <= j < |b| && b[j] == a[i];
    }
  }

  /** The partial state `swarm_parallel` returns. */
  function ParallelUpdate<W>(s: State, table: seq<(string, W)>, run: (W, string) -> Reply<string>): (u: State)
    ensures u.Keys == {"parallel_results", "step"}
    ensures u["parallel_results"].Table?
    ensures u["step"] == Int(GetInt(s, "step", 0) + 1)
  {
    map["parallel_results" := Table(Collected(table, GetStr(s, "user_input", ""), run)),
        "step" := Int(GetInt(s, "step", 0) + 1)]
  }

  /** swarm_parallel: call every worker on `user_input`, catching each
      worker's exception separately, and return the results with `step`
      increased by one.  What the result holds key by key is
      `ParallelUpdateHolds`. */
  method Parallel<W>(s: State, table: seq<(string, W)>, run: (W, string) -> Reply<string>) returns (u: State)
    ensures u == ParallelUpdate(s, table, run)
  {
    var input := GetStr(s, "user_input", "");
    var results: map<string, string> := map[];
    for i := 0 to |table|
      invariant results == Collected(table[..i], input, run)
    {
      var (name, worker) := table[i];
      ghost var before := results;
      match run(worker, input) {
        case Returned(result) =>
          results := results[name := result];
        case Raised(e) =>
          results := results[name := FailurePrefix + e];
      }
      CollectedStep(table, i, input, run);
      assert results == before[name := Placeholder(run(worker, input))];
    }
    assert table[..|table|] == table;
    u := map["parallel_results" := Table(results), "step" := Int(GetInt(s, "step", 0) + 1)];
  }

  /** Visiting one more entry stores its worker's outcome under its name. */
  lemma CollectedStep<W>(table: seq<(string, W)>, i: int, input: string, run: (W, string) -> Reply<string>)
    requires 0 <= i < |table|
    ensures Collected(table[..i + 1], input, run)
         == Collected(table[..i], input, run)[table[i].0 := Placeholder(run(table[i].1, input))]
  {
    assert table[..i + 1][..i] == table[..i];
  }

  /** What the partial state of swarm_parallel holds, key by key. */
  lemma ParallelUpdateHolds<W>(s: State, table: seq<(string, W)>, run: (W, string) -> Reply<string>)
    requires DistinctNames(table)
    ensures var u := ParallelUpdate(s, table, run);
            && u["parallel_results"].table.Keys == (set i | 0 <= i < |table| :: table[i].0)
            && forall i :: 0 <= i < |table| ==>
                 var answer := run(table[i].1, GetStr(s, "user_input", ""));
                 && (answer.Returned? ==> u["parallel_results"].table[table[i].0] == answer.value)
                 && (answer.Raised? ==> u["parallel_results"].table[table[i].0] == FailurePrefix + answer.message)
  {
    CollectedKeys(table, GetStr(s, "user_input", ""), run);
    CollectedAt(table, GetStr(s, "user_input", ""), run);
  }

  /** The keys `swarm_parallel` stores results under are the table's names. */
  lemma ParallelUpdateKeys<W>(s: State, table: seq<(string, W)>, run: (W, string) -> Reply<string>)
    ensures ParallelUpdate(s, table, run)["parallel_results"].table.Keys == (set i | 0 <= i < |table| :: table[i].0)
  {
    CollectedKeys(table, GetStr(s, "user_input", ""), run);
  }

  /** The result `swarm_parallel` stores for the `i`-th worker of the table. */
  lemma ParallelUpdateAt<W>(s: State, table: seq<(string, W)>, run: (W, string) -> Reply<string>, i: int)
    requires DistinctNames(table) && 0 <= i < |table|
    ensures table[i].0 in ParallelUpdate(s, table, run)["parallel_results"].table
    ensures ParallelUpdate(s, table, run)["parallel_results"].table[table[i].0]
         == Placeholder(run(table[i].1, GetStr(s, "user_input", "")))
  {
    CollectedAt(table, GetStr(s, "user_input", ""), run);
  }

  /** `parallel_results.get(key, '')` for each key the consensus prompt quotes,
      with `state.get("parallel_results", {})` when the results are missing. */
  function Views(s: State, keys: seq<string>): (v: seq<string>)
    ensures |v| == |keys|
    ensures forall i :: 0 <= i < |keys| && keys[i] in GetTable(s, "parallel_results") ==>
              v[i] == GetTable(s, "parallel_results")[keys[i]]
    ensures forall i :: 0 <= i < |keys| && keys[i] !in GetTable(s, "parallel_results") ==> v[i] == ""
  {
    var results := GetTable(s, "parallel_results");
    seq(|keys|, i requires 0 <= i < |keys| => TableGet(results, keys[i], ""))
  }

  /** swarm_consensus: hand `user_input` and the quoted results to the
      synthesising model call `synth`, store its answer and set `done`. */
  function Consensus(s: State, keys: seq<string>, synth: (string, seq<string>) -> Reply<string>): (r: Reply<State>)
    ensures r.Raised? <==> synth(GetStr(s, "user_input", ""), Views(s, keys)).Raised?
    ensures r.Returned? ==> r.value.Keys == {"consensus_result", "done"} && r.value["done"] == Bool(true)
    ensures r.Returned? ==>
              r.value["consensus_result"] == Str(synth(GetStr(s, "user_input", ""), Views(s, keys)).value)
  {
    var answer :- synth(GetStr(s, "user_input", ""), Views(s, keys));
    Returned(map["consensus_result" := Str(answer), "done" := Bool(true)])
  }

  /** The join reads what the fan-out wrote: after the parallel step, quoting
      the table's names gives, in order, each worker's own reply or failure
      placeholder, and no name falls back to ''. */
  lemma JoinReadsFanOut<W>(s: State, table: seq<(string, W)>, run: (W, string) -> Reply<string>)
    requires DistinctNames(table)
    ensures var views := Views(Update(s, ParallelUpdate(s, table, run)), Names(table));
            && |views| == |table|
            && forall i :: 0 <= i < |table| ==> views[i] == Placeholder(run(table[i].1, GetStr(s, "user_input", "")))
  {
    CollectedAt(table, GetStr(s, "user_input", ""), run);
  }

  /** build_swarm_graph: START -> parallel -> consensus -> END. */
  function Pipeline<W>(s0: State, table: seq<(string, W)>, run: (W, string) -> Reply<string>,
                       keys: seq<string>, synth: (string, seq<string>) -> Reply<string>): (r: Reply<State>)
    ensures r.Raised? <==>
              synth(GetStr(s0, "user_input", ""), Views(Update(s0, ParallelUpdate(s0, table, run)), keys)).Raised?
    ensures r.Returned? ==>
              && Has(r.value, "done", Bool(true))
              && Has(r.value, "parallel_results", Table(Collected(table, GetStr(s0, "user_input", ""), run)))
              && Has(r.value, "consensus_result",
                     Str(synth(GetStr(s0, "user_input", ""), Views(Update(s0, ParallelUpdate(s0, table, run)), keys)).value))
  {
    var s1 := Update(s0, ParallelUpdate(s0, table, run));
    var c :- Consensus(s1, keys, synth);
    assert Has(Update(s1, c), "consensus_result", c["consensus_result"]);
    Returned(Update(s1, c))
  }

  /** A failing worker does not stop the swarm: its key holds the placeholder,
      every other key holds its own worker's reply, and the consensus step
      still runs and sets `done`. */
  lemma PipelineIsolatesFailure<W>(s0: State, table: seq<(string, W)>, run: (W, string) -> Reply<string>,
                                   synth: (string, seq<string>) -> Reply<string>, j: nat)
    requires DistinctNames(table) && j < |table|
    requires run(table[j].1, GetStr(s0, "user_input", "")).Raised?
    requires synth(GetStr(s0, "user_input", ""),
                   Views(Update(s0, ParallelUpdate(s0, table, run)), Names(table))).Returned?
    ensures Pipeline(s0, table, run, Names(table), synth).Returned?
    ensures var final := Pipeline(s0, table, run, Names(table), synth).value;
            && final["done"] == Bool(true)
            && final["parallel_results"].Table?
            && final["parallel_results"].table[table[j].0]
                 == FailurePrefix + run(table[j].1, GetStr(s0, "user_input", "")).message
            && forall i :: 0 <= i < |table| && i != j ==>
                 final["parallel_results"].table[table[i].0] == Placeholder(run(table[i].1, GetStr(s0, "user_input", "")))
  {
    CollectedAt(table, GetStr(s0, "user_input", ""), run);
  }

  /** The swarm only writes its own four keys: every other key of the state
      (the supervisor's, when the two share one state) comes out as it went in. */
  lemma PipelineKeepsOtherKeys<W>(s0: State, table: seq<(string, W)>, run: (W, string) -> Reply<string>,
                                  keys: seq<string>, synth: (string, seq<string>) -> Reply<string>, k: string)
    requires k !in {"parallel_results", "step", "consensus_result", "done"}
    requires Pipeline(s0, table, run, keys, synth).Returned?
    ensures k in Pipeline(s0, table, run, keys, synth).value <==> k in s0
    ensures k in s0 ==> Pipeline(s0, table, run, keys, synth).value[k] == s0[k]
  {
    var s1 := Update(s0, ParallelUpdate(s0, table, run));
    var c := Consensus(s1, keys, synth).value;
    assert Pipeline(s0, table, run, keys, synth).value == Update(s1, c);
  }
}
