/** The four model-backed workers of the scripts that call a real chat model
    (langgraph-supervisor-swarm.py, supervisor-swarm-simple.py,
    supervisor-swarm-demo.py, async-supervisor-swarm.py).  What a worker
    sends and receives is outside code, so the search tool and the chat model
    are parameters; what the scripts themselves decide is which calls are
    made, in which order, and which exceptions are turned into text. */
module ModelWorkers {
  import opened Foreign
  import opened Labels

  /** The outside services a worker calls: the search tool on a request,
      and the chat model asked with worker `w`'s prompt for a request and,
      for research, the search results quoted in it. */
  datatype Services = Services(search: string -> Reply<string>, ask: (Worker, string, string) -> Reply<string>)

  /** A worker's body: research searches first and hands the results to the
      model; every other worker asks the model directly.  An exception of
      either call ends the body. */
  function Body(w: Worker, input: string, svc: Services): (r: Reply<string>)
    ensures w != Research ==> r == svc.ask(w, input, "")
    ensures w == Research && svc.search(input).Raised? ==> r == Raised(svc.search(input).message)
    ensures w == Research && svc.search(input).Returned? ==> r == svc.ask(Research, input, svc.search(input).value)
  {
    match w
    case Research =>
      var found :- svc.search(input);
      svc.ask(Research, input, found)
    case _ => svc.ask(w, input, "")
  }

  /** The texts the guarded workers answer with when their body raised. */
  const ResearchError: string := "研究过程中出现错误: "
  const AnalysisError: string := "分析过程中出现错误: "
  const CreativeError: string := "创作过程中出现错误: "
  const TechnicalError: string := "技术处理过程中出现错误: "

  /** The error text of each guarded worker. */
  function ErrorPrefix(w: Worker): string {
    match w
    case Research => ResearchError
    case Analysis => AnalysisError
    case Creative => CreativeError
    case Technical => TechnicalError
  }

  /** `try: ... except Exception as e: return f"{prefix}{str(e)}"`: a guarded
      body never raises; it answers with the body's reply, or with the error
      text followed by the exception message. */
  function Guarded(prefix: string, attempt: Reply<string>): (r: Reply<string>)
    ensures r.Returned?
    ensures attempt.Returned? ==> r == attempt
    ensures attempt.Raised? ==> r.value == prefix + attempt.message
  {
    match attempt
    case Returned(v) => Returned(v)
    case Raised(e) => Returned(prefix + e)
  }
}
