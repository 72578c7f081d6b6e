/** planner-test/main.py: a two-node graph that splits a learning goal into
    three sub-tasks and lays them out as a day-by-day plan, fed by a goal
    read from the console and refused when it is blank. */
module StudyPlanner {
  import opened Foreign
  import opened GraphState
  import Text

  /** The goal task_analyzer uses when the state has none. */
  const DefaultGoal: string := "未知任务"

  /** The three sub-tasks of a goal, in order. */
  function Subtasks(goal: string): (r: seq<string>)
    ensures |r| == 3
    ensures forall i :: 0 <= i < |r| ==> Text.Contains(r[i], goal)
  {
    assert goal[0..] == goal;
    Text.ContainsWithin("了解 ", goal, " 的基本概念", goal);
    Text.ContainsWithin("查阅 ", goal, " 相关资料", goal);
    Text.ContainsWithin("实践一个 ", goal, " 的简单实例", goal);
    ["了解 " + goal + " 的基本概念", "查阅 " + goal + " 相关资料", "实践一个 " + goal + " 的简单实例"]
  }

  /** task_analyzer: the sub-tasks of `user_goal`, or of the default goal. */
  function TaskAnalyzer(s: State): (r: State)
    ensures r.Keys == {"sub_tasks"} && r["sub_tasks"].Strs?
    ensures "user_goal" !in s ==> r["sub_tasks"] == Strs(Subtasks(DefaultGoal))
    ensures forall i :: 0 <= i < |r["sub_tasks"].strs| ==>
              Text.Contains(r["sub_tasks"].strs[i], GetStr(s, "user_goal", DefaultGoal))
  {
    map["sub_tasks" := Strs(Subtasks(GetStr(s, "user_goal", DefaultGoal)))]
  }

  /** The plan line for the task at (zero-based) position `i`. */
  function Entry(i: nat, task: string): (r: string)
    ensures |r| > 4 + |task| && r[..4] == "Day "
    ensures r[|r| - |task|..] == task
  {
    "Day " + Text.NatToString(i + 1) + ": " + task
  }

  /** The plan built from a task list: one line per task, in order. */
  function Plan(tasks: seq<string>): (r: seq<string>)
    ensures |r| == |tasks|
    ensures forall i :: 0 <= i < |tasks| ==> r[i] == Entry(i, tasks[i])
  {
    seq(|tasks|, i requires 0 <= i < |tasks| => Entry(i, tasks[i]))
  }

  /** planner: the day-by-day plan of `sub_tasks`, or an empty plan. */
  function Planner(s: State): (r: State)
    ensures r.Keys == {"plan"} && r["plan"].Strs?
    ensures |r["plan"].strs| == |GetStrs(s, "sub_tasks", [])|
    ensures forall i :: 0 <= i < |r["plan"].strs| ==>
              ParseEntry(r["plan"].strs[i]) == Some((i + 1, GetStrs(s, "sub_tasks", [])[i]))
  {
    PlanNumbersTasks(GetStrs(s, "sub_tasks", []));
    map["plan" := Strs(Plan(GetStrs(s, "sub_tasks", [])))]
  }

  /** The length of the run of decimal digits at the start of `s`. */
  function DigitSpan(s: string): (n: nat)
    ensures n <= |s| && Text.AllDigits(s[..n])
    ensures n < |s| ==> !Text.IsDigit(s[n])
  {
    if s != [] && Text.IsDigit(s[0]) then
      var n := 1 + DigitSpan(s[1..]);
      assert s[..n] == [s[0]] + s[1..][..n - 1];
      n
    else 0
  }

  /** A digit run followed by a non-digit is read up to its end. */
  lemma {:induction false} DigitSpanOf(d: string, t: string)
    requires Text.AllDigits(d)
    requires t == [] || !Text.IsDigit(t[0])
    ensures DigitSpan(d + t) == |d|
  {
    if d != [] {
      assert (d + t)[1..] == d[1..] + t;
      DigitSpanOf(d[1..], t);
    } else {
      assert d + t == t;
    }
  }

  /** Reads a plan line back as its day number and task. */
  function ParseEntry(line: string): (r: Option<(nat, string)>)
    ensures r.Some? ==> |line| > 4 + |r.value.1| && line[..4] == "Day "
    ensures r.Some? ==> line[|line| - |r.value.1|..] == r.value.1
  {
    if |line| < 4 || line[..4] != "Day " then None
    else
      var rest := line[4..];
      var n := DigitSpan(rest);
      if n == 0 || |rest| < n + 2 || rest[n..n + 2] != ": " then None
      else Some((Text.DigitsValue(rest[..n]), rest[n + 2..]))
  }

  /** Every plan line gives back its day, counted from one, and its task
      unchanged: the plan loses nothing of the sub-tasks it numbers. */
  lemma ParseEntryOfEntry(i: nat, task: string)
    ensures ParseEntry(Entry(i, task)) == Some((i + 1, task))
  {
    var digits := Text.NatToString(i + 1);
    var line := Entry(i, task);
    assert line == "Day " + (digits + (": " + task));
    var rest := line[4..];
    assert rest == digits + (": " + task);
    DigitSpanOf(digits, ": " + task);
    assert rest[..|digits|] == digits;
    assert rest[|digits|..] == ": " + task;
    Text.DigitsValueOfNatToString(i + 1);
  }

  /** The plan numbers the tasks one, two, three, ... in their own order. */
  lemma PlanNumbersTasks(tasks: seq<string>)
    ensures |Plan(tasks)| == |tasks|
    ensures forall i :: 0 <= i < |tasks| ==> ParseEntry(Plan(tasks)[i]) == Some((i + 1, tasks[i]))
  {
    forall i | 0 <= i < |tasks|
      ensures ParseEntry(Plan(tasks)[i]) == Some((i + 1, tasks[i]))
    {
      ParseEntryOfEntry(i, tasks[i]);
    }
  }

  /** The goal as the console hands it over: stripped, and refused when
      nothing is left. */
  function AcceptGoal(raw: string): (r: Option<State>)
    ensures r.None? <==> forall i :: 0 <= i < |raw| ==> Text.IsSpace(raw[i])
    ensures r.Some? ==> r.value == map["user_goal" := Str(Text.Strip(raw))] && Text.Strip(raw) != []
  {
    var goal := Text.Strip(raw);
    if goal == [] then None else Some(map["user_goal" := Str(goal)])
  }

  /** build_graph: START -> analyzer -> planner -> END. */
  function Run(s0: State): (r: State)
    ensures r.Keys == s0.Keys + {"sub_tasks", "plan"}
    ensures r["sub_tasks"] == Strs(Subtasks(GetStr(s0, "user_goal", DefaultGoal)))
    ensures r["plan"].Strs? && |r["plan"].strs| == 3
  {
    var s1 := Update(s0, TaskAnalyzer(s0));
    assert GetStrs(s1, "sub_tasks", []) == Subtasks(GetStr(s0, "user_goal", DefaultGoal));
    Update(s1, Planner(s1))
  }

  /** A goal the console accepts comes out as a three-day plan: day `i + 1`
      holds the `i`-th sub-task, and every sub-task names the goal. */
  lemma RunPlansThreeDays(raw: string)
    requires AcceptGoal(raw).Some?
    ensures var r := Run(AcceptGoal(raw).value);
            var goal := Text.Strip(raw);
            && Has(r, "user_goal", Str(goal))
            && Has(r, "sub_tasks", Strs(Subtasks(goal)))
            && "plan" in r && r["plan"].Strs? && |r["plan"].strs| == 3
            && forall i :: 0 <= i < 3 ==>
                 && ParseEntry(r["plan"].strs[i]) == Some((i + 1, Subtasks(goal)[i]))
                 && Text.Contains(Subtasks(goal)[i], goal)
  {
    var goal := Text.Strip(raw);
    var s0 := AcceptGoal(raw).value;
    var s1 := Update(s0, TaskAnalyzer(s0));
    assert GetStrs(s1, "sub_tasks", []) == Subtasks(goal);
    PlanNumbersTasks(Subtasks(goal));
  }
}
