/** The four worker labels every supervisor and swarm variant uses.  The
    labels stay strings in the state dictionaries, as in the scripts; the
    enumeration `Worker` names the worker a label selects. */
module Labels {
  import opened Foreign

  datatype Worker = Research | Analysis | Creative | Technical

  /** The label under which a worker is registered in the dispatch tables. */
  function Name(w: Worker): string {
    match w
    case Research => "research"
    case Analysis => "analysis"
    case Creative => "creative"
    case Technical => "technical"
  }

  /** `["research", "analysis", "creative", "technical"]`, the list the routers test. */
  const Names: seq<string> := ["research", "analysis", "creative", "technical"]

  /** `workers.items()` of the dispatch dict, in insertion order. */
  const Workers: seq<(string, Worker)> :=
    [("research", Research), ("analysis", Analysis), ("creative", Creative), ("technical", Technical)]

  /** The dispatch dict has exactly the four labels as keys, each once, and
      registers every worker under its own label. */
  lemma WorkersKeys()
    ensures (set i | 0 <= i < |Workers| :: Workers[i].0) == {"research", "analysis", "creative", "technical"}
    ensures forall i, j :: 0 <= i < j < |Workers| ==> Workers[i].0 != Workers[j].0
    ensures forall i :: 0 <= i < |Workers| ==> Workers[i].0 == Name(Workers[i].1)
  {
    var keys := set i | 0 <= i < |Workers| :: Workers[i].0;
    assert Workers[0].0 in keys && Workers[1].0 in keys && Workers[2].0 in keys && Workers[3].0 in keys;
  }

  /** The position of a worker in the dispatch dict. */
  function IndexOf(w: Worker): (i: nat)
    ensures i < |Workers| && Workers[i] == (Name(w), w)
  {
    match w
    case Research => 0
    case Analysis => 1
    case Creative => 2
    case Technical => 3
  }

  /** `task_type in workers` followed by `workers[task_type]`: the worker a label selects, if any. */
  function Parse(taskType: string): (r: Option<Worker>)
    ensures r.Some? <==> taskType in Names
    ensures r.Some? ==> Name(r.value) == taskType
  {
    if taskType == "research" then Some(Research)
    else if taskType == "analysis" then Some(Analysis)
    else if taskType == "creative" then Some(Creative)
    else if taskType == "technical" then Some(Technical)
    else None
  }

  /** Every worker's label selects that worker and no other. */
  lemma ParseName(w: Worker)
    ensures Parse(Name(w)) == Some(w)
    ensures Name(w) in Names
  {
  }
}
