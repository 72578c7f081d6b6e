/** planner-test/agent2.py: a question router without a model.  The request
    is lower-cased and sorted by keyword into "time", "weather" or
    "general", and the conditional edge sends it to the node of that name,
    which writes the answer.  The clock reading of the time answer is a
    parameter. */
module QuestionAgent {
  import opened Foreign
  import opened GraphState
  import Text

  /** The keyword table of classify_type, in the order it is consulted. */
  const Keywords: seq<(string, string)> :=
    [("时间", "time"), ("time", "time"), ("天气", "weather"), ("weather", "weather")]

  /** The label map of the conditional edge after "classify". */
  const Branches: map<string, string> := map["weather" := "weather", "time" := "time", "general" := "general"]

  /** `state["user_input"]`, which raises KeyError when the key is missing.
      A value that is not a string raises here as well; in the script it
      would flow on and raise at `.lower()` in classify_type. */
  function UserInput(s: State): (r: Reply<string>)
    ensures r.Returned? <==> "user_input" in s && s["user_input"].Str?
    ensures r.Returned? ==> r.value == GetStr(s, "user_input", "")
  {
    if "user_input" in s && s["user_input"].Str? then Returned(s["user_input"].str)
    else Raised("KeyError: 'user_input'")
  }

  /** The if/elif chain of classify_type on the lower-cased request: a time
      keyword wins over a weather keyword, and the label is always one the
      conditional edge maps. */
  function QuestionType(input: string): (r: string)
    ensures r in Branches && Branches[r] == r
    ensures r == "time" <==> Text.Contains(Text.Lower(input), "时间") || Text.Contains(Text.Lower(input), "time")
    ensures r == "weather" <==>
              && !(Text.Contains(Text.Lower(input), "时间") || Text.Contains(Text.Lower(input), "time"))
              && (Text.Contains(Text.Lower(input), "天气") || Text.Contains(Text.Lower(input), "weather"))
  {
    var text := Text.Lower(input);
    if Text.Contains(text, "时间") || Text.Contains(text, "time") then "time"
    else if Text.Contains(text, "天气") || Text.Contains(text, "weather") then "weather"
    else "general"
  }

  /** The chain is the first-match reading of the keyword table with
      "general" as the fallback. */
  lemma QuestionTypeIsFirstMatch(input: string)
    ensures QuestionType(input) == Text.FirstMatch(Keywords, Text.Lower(input), "general")
  {
    var k := Keywords;
    var text := Text.Lower(input);
    assert k[1..][1..][1..][1..] == [];
    assert Text.FirstMatch(k[1..][1..][1..], text, "general")
        == if Text.Contains(text, "weather") then "weather" else "general";
    assert Text.FirstMatch(k[1..][1..], text, "general")
        == if Text.Contains(text, "天气") || Text.Contains(text, "weather") then "weather" else "general";
  }

  /** receive_input: hands `user_input` back unchanged. */
  function ReceiveInput(s: State): (r: Reply<State>)
    ensures r.Returned? <==> UserInput(s).Returned?
    ensures r.Returned? ==> r.value.Keys == {"user_input"} && Update(s, r.value) == s
  {
    var input :- UserInput(s);
    Returned(map["user_input" := Str(input)])
  }

  /** classify_type. */
  function ClassifyType(s: State): (r: Reply<State>)
    ensures r.Returned? <==> UserInput(s).Returned?
    ensures r.Returned? ==> r.value == map["question_type" := Str(QuestionType(UserInput(s).value))]
  {
    var input :- UserInput(s);
    Returned(map["question_type" := Str(QuestionType(input))])
  }

  const WeatherInfo: string := "今天天气晴朗，温度25°C，适合外出"

  /** answer_weather: the same canned forecast for every state. */
  function AnswerWeather(s: State): (r: State)
    ensures r.Keys == {"answer"} && r["answer"] == Str(WeatherInfo)
  {
    map["answer" := Str(WeatherInfo)]
  }

  /** answer_time, with `now` the formatted clock reading. */
  function AnswerTime(s: State, now: string): (r: State)
    ensures r.Keys == {"answer"} && r["answer"].Str?
    ensures Text.Contains(r["answer"].str, now)
  {
    assert "现在时间是" + now + "" == "现在时间是" + now;
    QuotesInput("现在时间是", now, "");
    map["answer" := Str("现在时间是" + now)]
  }

  /** answer_general: the answer quotes the request verbatim. */
  function AnswerGeneral(s: State): (r: Reply<State>)
    ensures r.Returned? <==> UserInput(s).Returned?
    ensures r.Returned? ==> "answer" in r.value && r.value["answer"].Str?
                            && Text.Contains(r.value["answer"].str, UserInput(s).value)
  {
    var input :- UserInput(s);
    QuotesInput("关于'", input, "'这个问题，我需要更多信息才能给出准确的回答");
    Returned(map["answer" := Str("关于'" + input + "'这个问题，我需要更多信息才能给出准确的回答")])
  }

  lemma QuotesInput(a: string, t: string, b: string)
    ensures Text.Contains(a + t + b, t)
  {
    assert t <= (a + t + b)[|a|..];
  }

  /** One request through the graph: input, classify, then the branch the
      label maps to; `now` is the clock reading answer_time would take. */
  function Ask(s0: State, now: string): (r: Reply<State>)
    ensures r.Returned? <==> UserInput(s0).Returned?
    ensures r.Returned? ==> "answer" in r.value && "question_type" in r.value
  {
    match ReceiveInput(s0)
    case Raised(e) => Raised(e)
    case Returned(u1) =>
      // receive_input writes `user_input` back, so the later reads of it
      // in classify_type and answer_general cannot raise
      var s1 := Update(s0, u1);
      var s2 := Update(s1, ClassifyType(s1).value);
      var branch := Branches[QuestionType(UserInput(s1).value)];
      if branch == "time" then Returned(Update(s2, AnswerTime(s2, now)))
      else if branch == "weather" then Returned(Update(s2, AnswerWeather(s2)))
      else Returned(Update(s2, AnswerGeneral(s2).value))
  }

  /** Every request with a `user_input` string gets an answer: routing is
      total, the question type is one of the three labels, a time request is
      answered with the clock, a weather request with the forecast, and any
      other request with an answer quoting it. */
  lemma AskAnswersEveryQuestion(s0: State, now: string)
    requires UserInput(s0).Returned?
    ensures Ask(s0, now).Returned?
    ensures var r := Ask(s0, now).value;
            var q := QuestionType(UserInput(s0).value);
            && Has(r, "question_type", Str(q))
            && "answer" in r && r["answer"].Str?
            && (q == "time" ==> r["answer"] == Str("现在时间是" + now))
            && (q == "weather" ==> r["answer"] == Str(WeatherInfo))
            && (q == "general" ==> Text.Contains(r["answer"].str, UserInput(s0).value))
  {
    var s1 := Update(s0, ReceiveInput(s0).value);
    assert s1 == s0;
    var s2 := Update(s1, ClassifyType(s1).value);
    assert UserInput(s2) == UserInput(s0);
  }
}
