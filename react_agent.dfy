/** _examples_langgraph/react_stategraph_react.py: a ReAct loop.  The model
    is asked for a JSON action; a search action runs the search tool and
    loops back to the model, anything else goes to the finishing node, and
    after the third tool step the loop finishes whatever the model asks.

    The chat model, `json.loads` and the search tool are the oracles of a
    `Backend`. */
module ReactAgent {
  import opened Foreign
  import opened GraphState
  import Text

  /** The foreign calls of the script:
      - `llm(request)` is the content of `llm.invoke` on the messages of `request`;
      - `decode(text)` is `json.loads(text)`, `None` when it raises;
      - `search(input)` is `str(search.invoke(input))`. */
  datatype Backend = Backend(llm: Request -> Reply<string>,
                             decode: string -> Option<Json>,
                             search: Json -> Reply<string>)

  /** The one tool name in `TOOLS`. */
  const ToolName: string := "tavily_search"

  /** The largest number of tool steps before `continue_or_finish` stops the loop. */
  const MaxSteps: nat := 3

  /** The lines of `SYSTEM_PROMPT` before its tool whitelist. */
  const ReactGuide: string := "你是一个ReAct智能体：\n- 按“思考→调用工具(可选)→再思考→最终回答”的流程工作。\n- 严格输出 JSON（不要夹杂其它文本）：\n  {\"type\": \"tool\", \"tool\": \"tavily_search\", \"input\": \"<查询>\"}\n  或\n  {\"type\": \"final\", \"answer\": \"<最终答案>\"}\n- 只有需要外部信息时才调用工具；否则直接输出最终答案。"

  /** The two system prompts the script sends. */
  datatype Instructions = ReactInstructions | FinishInstructions

  /** Their text: `SYSTEM_PROMPT` after `.strip()`, and the system message of
      the fallback call in node_finish. */
  function InstructionText(p: Instructions): string {
    match p
    case ReactInstructions => ReactGuide + "\n- 工具名白名单：" + ToolName + "。"
    case FinishInstructions => "基于现有上下文与工具观察，输出简洁准确的最终答案。"
  }

  /** A message list handed to the model: the system message with the text
      of `system`, then the turns in order. */
  datatype Request = Request(system: Instructions, turns: seq<ChatMessage>)

  /** The system prompt ends with the tool whitelist, and that whitelist names
      exactly the tool `route` accepts. */
  lemma InstructionsNameTool()
    ensures Text.Contains(InstructionText(ReactInstructions), ToolName)
    ensures var t, w := InstructionText(ReactInstructions), "工具名白名单：" + ToolName + "。";
            |t| >= |w| && t[|t| - |w|..] == w
  {
    var w := "工具名白名单：" + ToolName + "。";
    assert InstructionText(ReactInstructions) == (ReactGuide + "\n- ") + w;
    assert ToolName[0..] == ToolName;
    Text.ContainsWithin(ReactGuide + "\n- 工具名白名单：", ToolName, "。", ToolName);
  }

  const ObservationPrefix: string := "(工具观察)\n"
  const ToolResultPrefix: string := "[工具结果]\n"

  /** `dict.get(k)` on a JSON object. */
  function Field(fields: map<string, Json>, k: string): Option<Json> {
    if k in fields then Some(fields[k]) else None
  }

  /** `state.get("model_action", {})`. */
  function ModelAction(s: State): Json {
    if "model_action" in s && s["model_action"].Data? then s["model_action"].json else JObj(map[])
  }

  /** node_input: pass `messages` through and start a fresh run. */
  function Input(s: State): (r: State)
    ensures r.Keys == {"messages", "step", "done"}
    ensures r["messages"] == Messages(GetMessages(s, "messages"))
    ensures r["step"] == Int(0) && r["done"] == Bool(false)
  {
    map["messages" := Messages(GetMessages(s, "messages")), "step" := Int(0), "done" := Bool(false)]
  }

  /** How node_think hands one message to the model: a human message and a
      tool result speak as the user, the tool result behind a marker line,
      and the model's own messages as the assistant. */
  function Turn(m: Message): (r: ChatMessage)
    ensures r.role == "assistant" <==> m.AI?
    ensures r.role == "user" <==> !m.AI?
    ensures !m.ToolResult? ==> r.content == m.content
    ensures m.ToolResult? ==> r.content == ToolResultPrefix + m.content
  {
    match m
    case Human(c) => ChatMessage("user", c)
    case AI(c) => ChatMessage("assistant", c)
    case ToolResult(c, _) => ChatMessage("user", ToolResultPrefix + c)
  }

  /** One turn per message, in order. */
  function Turns(messages: seq<Message>): (r: seq<ChatMessage>)
    ensures |r| == |messages|
    ensures forall i :: 0 <= i < |messages| ==> r[i] == Turn(messages[i])
  {
    seq(|messages|, i requires 0 <= i < |messages| => Turn(messages[i]))
  }

  /** `full_msgs`: the system prompt, then one turn per message. */
  function ThinkTranscript(messages: seq<Message>): Request {
    Request(ReactInstructions, Turns(messages))
  }

  /** The loop of node_think that builds `full_msgs`. */
  method BuildTranscript(messages: seq<Message>) returns (full: Request)
    ensures full == ThinkTranscript(messages)
  {
    var turns: seq<ChatMessage> := [];
    for i := 0 to |messages|
      invariant turns == Turns(messages[..i])
    {
      match messages[i] {
        case Human(c) => turns := turns + [ChatMessage("user", c)];
        case AI(c) => turns := turns + [ChatMessage("assistant", c)];
        case ToolResult(c, _) => turns := turns + [ChatMessage("user", ToolResultPrefix + c)];
      }
    }
    assert messages[..|messages|] == messages;
    full := Request(ReactInstructions, turns);
  }

  /** The message list node_think works on: a copy of `messages` with the
      last observation appended when there is one. */
  function Observed(s: State): seq<Message> {
    var observation := GetStr(s, "last_tool_result", "");
    GetMessages(s, "messages") + if observation != "" then [AI(ObservationPrefix + observation)] else []
  }

  /** The action node_think stores for a reply: the decoded JSON, or a final
      answer holding the reply itself when it does not decode. */
  function Action(content: string, decode: string -> Option<Json>): (r: Json)
    ensures decode(content).None? ==> r == JObj(map["type" := JStr("final"), "answer" := JStr(content)])
    ensures decode(content).Some? ==> r == decode(content).value
  {
    match decode(content)
    case Some(j) => j
    case None => JObj(map["type" := JStr("final"), "answer" := JStr(content)])
  }

  /** node_think: nothing once `done` is set; otherwise ask the model on the
      observed transcript and append its stripped reply. */
  function Think(s: State, b: Backend): (r: Reply<State>)
    ensures Truthy(s, "done") ==> r == Returned(map[])
    ensures !Truthy(s, "done") ==> (r.Raised? <==> b.llm(ThinkTranscript(Observed(s))).Raised?)
    ensures r.Returned? && !Truthy(s, "done") ==>
              var content := Text.Strip(b.llm(ThinkTranscript(Observed(s))).value);
              && r.value.Keys == {"messages", "model_action"}
              && r.value["messages"] == Messages(Observed(s) + [AI(content)])
              && r.value["model_action"] == Data(Action(content, b.decode))
  {
    if Truthy(s, "done") then Returned(map[])
    else
      var messages := Observed(s);
      var reply :- b.llm(ThinkTranscript(messages));
      var content := Text.Strip(reply);
      Returned(map["messages" := Messages(messages + [AI(content)]), "model_action" := Data(Action(content, b.decode))])
  }

  /** node_think, step by step as the script writes it. */
  method NodeThink(s: State, b: Backend) returns (r: Reply<State>)
    ensures r == Think(s, b)
  {
    if Truthy(s, "done") {
      return Returned(map[]);
    }
    var messages := GetMessages(s, "messages");
    var lastObservation := GetStr(s, "last_tool_result", "");
    if lastObservation != "" {
      messages := messages + [AI(ObservationPrefix + lastObservation)];
    }
    assert messages == Observed(s);
    var full := BuildTranscript(messages);
    match b.llm(full) {
      case Raised(e) =>
        r := Raised(e);
      case Returned(reply) =>
        var content := Text.Strip(reply);
        var action := Action(content, b.decode);
        messages := messages + [AI(content)];
        r := Returned(map["messages" := Messages(messages), "model_action" := Data(action)]);
    }
  }

  /** node_think appends exactly one reply, preceded by the observation
      exactly when `last_tool_result` is non-empty, and keeps the messages
      it was given as a prefix. */
  lemma ThinkAppendsReply(s: State, b: Backend)
    requires !Truthy(s, "done") && Think(s, b).Returned?
    ensures var m := Think(s, b).value["messages"].messages;
            var observed := GetStr(s, "last_tool_result", "") != "";
            && |m| == |GetMessages(s, "messages")| + (if observed then 2 else 1)
            && m[..|GetMessages(s, "messages")|] == GetMessages(s, "messages")
            && m[|m| - 1].AI?
            && (observed ==> m[|m| - 2] == AI(ObservationPrefix + GetStr(s, "last_tool_result", "")))
  {
    var given := GetMessages(s, "messages");
    var o := Observed(s);
    var content := Text.Strip(b.llm(ThinkTranscript(o)).value);
    var m := o + [AI(content)];
    assert Think(s, b).value["messages"].messages == m;
    assert m[..|given|] == given by {
      assert o[..|given|] == given;
    }
    if GetStr(s, "last_tool_result", "") != "" {
      assert m[|m| - 2] == o[|o| - 1];
    }
  }

  /** route: "act" exactly for a search action; an action that is not an
      object, or whose tool name is a list or an object, raises. */
  function Route(s: State): (r: Reply<string>)
    ensures r.Returned? ==> r.value == "act" || r.value == "finish"
    ensures r == Returned("act") <==>
              && ModelAction(s).JObj?
              && Field(ModelAction(s).fields, "type") == Some(JStr("tool"))
              && Field(ModelAction(s).fields, "tool") == Some(JStr(ToolName))
    ensures r.Raised? <==>
              || !ModelAction(s).JObj?
              || (&& Field(ModelAction(s).fields, "type") == Some(JStr("tool"))
                  && "tool" in ModelAction(s).fields
                  && (ModelAction(s).fields["tool"].JArr? || ModelAction(s).fields["tool"].JObj?))
  {
    var action := ModelAction(s);
    if !action.JObj? then Raised("AttributeError: object has no attribute 'get'")
    else if Field(action.fields, "type") != Some(JStr("tool")) then Returned("finish")
    else
      match Field(action.fields, "tool")
      case None => Returned("finish")
      case Some(tool) =>
        if tool.JArr? || tool.JObj? then Raised("TypeError: unhashable type")
        else if tool == JStr(ToolName) then Returned("act")
        else Returned("finish")
  }

  /** The tool input of an action: `action.get("input", "")`. */
  function ToolInput(fields: map<string, Json>): Json {
    if "input" in fields then fields["input"] else JStr("")
  }

  /** node_act: run the named tool on the action's input, append its result
      as a tool message, remember it as the last observation and count the
      step.  The action must be an object naming the one tool. */
  function Act(s: State, b: Backend): (r: Reply<State>)
    ensures r.Returned? ==>
              && ModelAction(s).JObj?
              && Field(ModelAction(s).fields, "tool") == Some(JStr(ToolName))
              && var obs := b.search(ToolInput(ModelAction(s).fields));
                 && obs.Returned?
                 && r.value.Keys == {"messages", "last_tool_result", "step"}
                 && r.value["messages"] == Messages(GetMessages(s, "messages") + [ToolResult(obs.value, ToolName)])
                 && r.value["last_tool_result"] == Str(obs.value)
                 && r.value["step"] == Int(GetInt(s, "step", 0) + 1)
  {
    if "model_action" !in s then Raised("KeyError: 'model_action'")
    else
      var action := ModelAction(s);
      if !action.JObj? then Raised("TypeError: indices must be integers")
      else if "tool" !in action.fields then Raised("KeyError: 'tool'")
      else
        var tool := action.fields["tool"];
        if tool.JArr? || tool.JObj? then Raised("TypeError: unhashable type")
        else if tool != JStr(ToolName) then Raised("KeyError: tool name")
        else
          var obs :- b.search(ToolInput(action.fields));
          Returned(map["messages" := Messages(GetMessages(s, "messages") + [ToolResult(obs, ToolName)]),
                       "last_tool_result" := Str(obs),
                       "step" := Int(GetInt(s, "step", 0) + 1)])
  }

  /** The router only sends an action to node_act that node_act can carry
      out: after "act", node_act fails only when the search tool does. */
  lemma RouteAgreesWithAct(s: State, b: Backend)
    requires Route(s) == Returned("act")
    ensures Act(s, b).Raised? <==> b.search(ToolInput(ModelAction(s).fields)).Raised?
  {
  }

  /** continue_or_finish: back to the model while fewer than three tool
      steps were taken. */
  function ContinueOrFinish(s: State): (r: string)
    ensures r == "think" <==> GetInt(s, "step", 0) < MaxSteps as int
    ensures r == "finish" <==> GetInt(s, "step", 0) >= MaxSteps as int
  {
    if GetInt(s, "step", 0) < MaxSteps as int then "think" else "finish"
  }

  /** The fallback transcript of node_finish: the model's messages speak
      as the assistant, everything else as the user, with no marker. */
  function FinishTranscript(messages: seq<Message>): (r: Request)
    ensures r.system == FinishInstructions && |r.turns| == |messages|
    ensures forall i :: 0 <= i < |messages| ==>
              && r.turns[i].content == messages[i].content
              && (r.turns[i].role == "assistant" <==> messages[i].AI?)
              && (r.turns[i].role == "user" <==> !messages[i].AI?)
  {
    Request(FinishInstructions,
            seq(|messages|, i requires 0 <= i < |messages| =>
                  ChatMessage(if messages[i].AI? then "assistant" else "user", messages[i].content)))
  }

  /** The action carries its own final answer. */
  predicate HasAnswer(action: Json) {
    && action.JObj?
    && Field(action.fields, "type") == Some(JStr("final"))
    && "answer" in action.fields
    && JsonTruthy(action.fields["answer"])
  }

  /** node_finish: the action's own answer when it is a final one with a
      non-empty answer, otherwise the model's answer to the whole
      conversation; the answer is appended and `done` is set. */
  function Finish(s: State, b: Backend): (r: Reply<State>)
    ensures r.Returned? ==>
              && r.value.Keys == {"messages", "done"}
              && r.value["done"] == Bool(true)
              && r.value["messages"].Messages?
              && var m := r.value["messages"].messages;
                 && |m| == |GetMessages(s, "messages")| + 1
                 && m[..|GetMessages(s, "messages")|] == GetMessages(s, "messages")
                 && m[|m| - 1].AI?
    ensures HasAnswer(ModelAction(s)) && ModelAction(s).fields["answer"].JStr? ==>
              r == Returned(map["messages" := Messages(GetMessages(s, "messages") + [AI(ModelAction(s).fields["answer"].text)]),
                                "done" := Bool(true)])
    ensures ModelAction(s).JObj? && !HasAnswer(ModelAction(s)) ==>
              (r.Raised? <==> b.llm(FinishTranscript(GetMessages(s, "messages"))).Raised?)
    ensures ModelAction(s).JObj? && !HasAnswer(ModelAction(s)) && r.Returned? ==>
              r.value["messages"].messages
                == GetMessages(s, "messages") + [AI(b.llm(FinishTranscript(GetMessages(s, "messages"))).value)]
  {
    var messages := GetMessages(s, "messages");
    var action := ModelAction(s);
    if !action.JObj? then Raised("AttributeError: object has no attribute 'get'")
    else
      var answer :- if HasAnswer(action) then
                      (if action.fields["answer"].JStr? then Returned(action.fields["answer"].text)
                       else Raised("ValidationError: message content must be a string"))
                    else b.llm(FinishTranscript(messages));
      assert (messages + [AI(answer)])[..|messages|] == messages;
      Returned(map["messages" := Messages(messages + [AI(answer)]), "done" := Bool(true)])
  }

  /** The outcome of one invocation: the final state and the number of tool steps taken. */
  datatype Outcome = Outcome(final: State, acts: nat)

  /** Where one round from "think" leaves the graph: after node_act, or done. */
  datatype Step = Acted(state: State) | Finished(state: State)

  /** One round: think, route, then act or finish.  Acting counts one step
      and finishing ends the run. */
  function Round(s: State, b: Backend): (r: Reply<Step>)
    ensures r.Returned? && r.value.Acted? ==> GetInt(r.value.state, "step", 0) == GetInt(s, "step", 0) + 1
    ensures r.Returned? && r.value.Finished? ==> Ended(r.value.state)
  {
    var t :- Think(s, b);
    ThinkKeepsStep(s, b);
    AfterThink(Update(s, t), b)
  }

  /** The part of a round after node_think: route, then act or finish. */
  function AfterThink(s1: State, b: Backend): (r: Reply<Step>)
    ensures r.Returned? && r.value.Acted? ==> GetInt(r.value.state, "step", 0) == GetInt(s1, "step", 0) + 1
    ensures r.Returned? && r.value.Finished? ==> Ended(r.value.state)
  {
    var next :- Route(s1);
    if next == "act" then
      var a :- Act(s1, b);
      ActCountsStep(s1, b);
      Returned(Acted(Update(s1, a)))
    else
      var f :- Finish(s1, b);
      FinishEnds(s1, b);
      Returned(Finished(Update(s1, f)))
  }

  /** The rounds of the graph from "think": after an act, back to "think"
      while `continue_or_finish` allows, else to node_finish. */
  function Rounds(s: State, b: Backend): (r: Reply<Outcome>)
    ensures r.Returned? ==> Ended(r.value.final)
    decreases if GetInt(s, "step", 0) < MaxSteps as int then MaxSteps as int - GetInt(s, "step", 0) else 0
  {
    var step :- Round(s, b);
    match step
    case Finished(f) => Returned(Outcome(f, 0))
    case Acted(s2) =>
      if ContinueOrFinish(s2) == "think" then
        var o :- Rounds(s2, b);
        Returned(Outcome(o.final, o.acts + 1))
      else
        var f :- Finish(s2, b);
        FinishEnds(s2, b);
        Returned(Outcome(Update(s2, f), 1))
  }

  /** START -> input -> think, then the rounds. */
  function Agent(s0: State, b: Backend): (r: Reply<Outcome>)
    ensures r.Returned? ==> Ended(r.value.final)
  {
    Rounds(Update(s0, Input(s0)), b)
  }

  /** A final state as node_finish leaves it: `done` is set and the last
      message is the model's. */
  predicate Ended(f: State) {
    && Has(f, "done", Bool(true))
    && "messages" in f && f["messages"].Messages? && f["messages"].messages != []
    && f["messages"].messages[|f["messages"].messages| - 1].AI?
  }

  /** node_think leaves the step count alone. */
  lemma ThinkKeepsStep(s: State, b: Backend)
    requires Think(s, b).Returned?
    ensures GetInt(Update(s, Think(s, b).value), "step", 0) == GetInt(s, "step", 0)
  {
    ThinkOmitsStep(s, b);
    UpdateKeepsInt(s, Think(s, b).value, "step", 0);
  }

  /** The partial state of node_think has no `step` key. */
  lemma ThinkOmitsStep(s: State, b: Backend)
    requires Think(s, b).Returned?
    ensures "step" !in Think(s, b).value
  {
    if Truthy(s, "done") {
      assert Think(s, b).value == map[];
    } else {
      assert Think(s, b).value.Keys == {"messages", "model_action"};
    }
  }

  /** node_act counts one step. */
  lemma ActCountsStep(s: State, b: Backend)
    requires Act(s, b).Returned?
    ensures GetInt(Update(s, Act(s, b).value), "step", 0) == GetInt(s, "step", 0) + 1
  {
  }

  /** node_finish ends the run. */
  lemma FinishEnds(s: State, b: Backend)
    requires Finish(s, b).Returned?
    ensures Ended(Update(s, Finish(s, b).value))
  {
  }

  /** From a state whose step count is `k`, the rounds take at most
      `3 - k` tool steps (one when `k` is already 3 or more), and a run
      that ends ends in node_finish. */
  lemma {:induction false} RoundsBounded(s: State, b: Backend)
    requires Rounds(s, b).Returned?
    ensures var k := GetInt(s, "step", 0);
            Rounds(s, b).value.acts <= if k < MaxSteps as int then MaxSteps as int - k else 1
    ensures Ended(Rounds(s, b).value.final)
    decreases if GetInt(s, "step", 0) < MaxSteps as int then MaxSteps as int - GetInt(s, "step", 0) else 0
  {
    match Round(s, b).value
    case Finished(f) =>
    case Acted(s2) =>
      if ContinueOrFinish(s2) == "think" {
        RoundsBounded(s2, b);
      } else {
        FinishEnds(s2, b);
      }
  }

  /** One invocation takes at most three tool steps and always ends with
      `done` set and the answer as the last message. */
  lemma AgentTakesAtMostThreeSteps(s0: State, b: Backend)
    requires Agent(s0, b).Returned?
    ensures Agent(s0, b).value.acts <= MaxSteps
    ensures Ended(Agent(s0, b).value.final)
  {
    RoundsBounded(Update(s0, Input(s0)), b);
  }

  /** The final action that carries `answer`. */
  function FinalAction(answer: string): Json {
    JObj(map["type" := JStr("final"), "answer" := JStr(answer)])
  }

  /** node_think on a model reply, spelled out. */
  lemma ThinkOnReply(s: State, b: Backend, reply: string)
    requires !Truthy(s, "done") && b.llm(ThinkTranscript(Observed(s))) == Returned(reply)
    ensures Think(s, b) == Returned(map["messages" := Messages(Observed(s) + [AI(Text.Strip(reply))]),
                                        "model_action" := Data(Action(Text.Strip(reply), b.decode))])
  {
  }

  /** node_finish on a final action with a non-empty answer appends that
      answer without asking the model. */
  lemma FinishOnFinalAction(s: State, b: Backend, answer: string)
    requires answer != [] && ModelAction(s) == FinalAction(answer)
    ensures Finish(s, b) == Returned(map["messages" := Messages(GetMessages(s, "messages") + [AI(answer)]),
                                         "done" := Bool(true)])
  {
    assert HasAnswer(ModelAction(s));
  }

  /** A round whose model step yields a final action with a non-empty
      answer goes straight to node_finish, which appends that answer. */
  lemma RoundOnFinalAction(s: State, b: Backend, m: seq<Message>, answer: string)
    requires answer != []
    requires Think(s, b) == Returned(map["messages" := Messages(m), "model_action" := Data(FinalAction(answer))])
    ensures Round(s, b).Returned? && Round(s, b).value.Finished?
    ensures Has(Round(s, b).value.state, "messages", Messages(m + [AI(answer)]))
  {
    var s1 := Update(s, Think(s, b).value);
    assert Round(s, b) == AfterThink(s1, b);
    assert ModelAction(s1) == FinalAction(answer);
    assert GetMessages(s1, "messages") == m;
    AfterThinkOnFinalAction(s1, b, answer);
  }

  /** After a model step that yields a final action with a non-empty answer,
      the router picks node_finish, which appends that answer. */
  lemma AfterThinkOnFinalAction(s1: State, b: Backend, answer: string)
    requires answer != [] && ModelAction(s1) == FinalAction(answer)
    ensures AfterThink(s1, b).Returned? && AfterThink(s1, b).value.Finished?
    ensures Has(AfterThink(s1, b).value.state, "messages", Messages(GetMessages(s1, "messages") + [AI(answer)]))
  {
    FinishOnFinalAction(s1, b, answer);
    assert Route(s1) == Returned("finish");
  }

  /** A round that finishes is the last one. */
  lemma RoundsOnFinished(s: State, b: Backend)
    requires Round(s, b).Returned? && Round(s, b).value.Finished?
    ensures Rounds(s, b) == Returned(Outcome(Round(s, b).value.state, 0))
  {
  }

  /** node_think on a reply that decodes to a final action. */
  lemma ThinkOnFinalReply(s: State, b: Backend, reply: string, answer: string)
    requires !Truthy(s, "done")
    requires b.llm(ThinkTranscript(Observed(s))) == Returned(reply)
    requires b.decode(Text.Strip(reply)) == Some(FinalAction(answer))
    ensures Think(s, b) == Returned(map["messages" := Messages(Observed(s) + [AI(Text.Strip(reply))]),
                                        "model_action" := Data(FinalAction(answer))])
  {
    ThinkOnReply(s, b, reply);
  }

  /** A first round whose reply decodes to a final action with a non-empty
      answer ends the rounds without a tool step. */
  lemma FirstRoundAnswers(s: State, b: Backend, reply: string, answer: string)
    requires !Truthy(s, "done")
    requires b.llm(ThinkTranscript(Observed(s))) == Returned(reply)
    requires b.decode(Text.Strip(reply)) == Some(FinalAction(answer))
    requires answer != []
    ensures Rounds(s, b).Returned? && Rounds(s, b).value.acts == 0
    ensures Has(Rounds(s, b).value.final, "messages",
                Messages(Observed(s) + [AI(Text.Strip(reply)), AI(answer)]))
  {
    ThinkOnFinalReply(s, b, reply, answer);
    RoundsOnFinalAction(s, b, Observed(s), Text.Strip(reply), answer);
  }

  /** Rounds whose first model step appends reply `x` to `p` and yields a
      final action with a non-empty answer end there, with that answer
      appended after `x` and no tool step. */
  lemma RoundsOnFinalAction(s: State, b: Backend, p: seq<Message>, x: string, answer: string)
    requires answer != []
    requires Think(s, b) == Returned(map["messages" := Messages(p + [AI(x)]), "model_action" := Data(FinalAction(answer))])
    ensures Rounds(s, b).Returned? && Rounds(s, b).value.acts == 0
    ensures Has(Rounds(s, b).value.final, "messages", Messages(p + [AI(x), AI(answer)]))
  {
    RoundOnFinalAction(s, b, p + [AI(x)], answer);
    RoundsOnFinished(s, b);
    assert p + [AI(x)] + [AI(answer)] == p + [AI(x), AI(answer)];
  }

  /** A model that answers at once ends the run without any tool step: its
      decoded final answer is the last message, after the reply itself. */
  lemma DirectAnswer(s0: State, b: Backend, reply: string, answer: string)
    requires GetStr(s0, "last_tool_result", "") == ""
    requires b.llm(ThinkTranscript(GetMessages(s0, "messages"))) == Returned(reply)
    requires b.decode(Text.Strip(reply)) == Some(FinalAction(answer))
    requires answer != []
    ensures Agent(s0, b).Returned?
    ensures Agent(s0, b).value.acts == 0
    ensures Has(Agent(s0, b).value.final, "messages",
                Messages(GetMessages(s0, "messages") + [AI(Text.Strip(reply)), AI(answer)]))
  {
    var s := Update(s0, Input(s0));
    assert !Truthy(s, "done");
    assert Observed(s) == GetMessages(s0, "messages");
    FirstRoundAnswers(s, b, reply, answer);
  }
}
