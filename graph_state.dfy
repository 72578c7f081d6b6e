/** The state dictionaries that flow through the demos' workflow graphs.
    Each state is a Python `TypedDict(total=False)`: any key may be missing,
    nodes read keys with `state.get(key, default)` and return a partial dict,
    and the graph overwrites the keys a node returned while keeping the rest. */
module GraphState {

  /** A chat message as the ReAct example keeps it in `messages`. */
  datatype Message =
    | Human(content: string)
    | AI(content: string)
    | ToolResult(content: string, toolName: string)

  /** One chat message `{"role": ..., "content": ...}` handed to a model. */
  datatype ChatMessage = ChatMessage(role: string, content: string)

  /** A value `json.loads` can produce (numbers restricted to integers). */
  datatype Json =
    | JNull
    | JBool(flag: bool)
    | JNum(number: int)
    | JStr(text: string)
    | JArr(items: seq<Json>)
    | JObj(fields: map<string, Json>)

  /** The kinds of value the demos keep under a state key. */
  datatype Value =
    | Str(str: string)
    | Int(num: int)
    | Bool(flag: bool)
    | Strs(strs: seq<string>)
    | Table(table: map<string, string>)
    | Messages(messages: seq<Message>)
    | Data(json: Json)

  type State = map<string, Value>

  /** `state.update(partial)`: the keys of the partial dict are overwritten,
      every other key keeps its value. */
  function Update(s: State, u: State): (r: State)
    ensures r.Keys == s.Keys + u.Keys
    ensures forall k :: k in u ==> r[k] == u[k]
    ensures forall k :: k in s && k !in u ==> r[k] == s[k]
  {
    s + u
  }

  /** The state holds `v` under `k`. */
  predicate Has(s: State, k: string, v: Value) {
    k in s && s[k] == v
  }

  /** `state.get(k, d)` for a string-valued key. */
  function GetStr(s: State, k: string, d: string): string {
    if k in s && s[k].Str? then s[k].str else d
  }

  /** `state.get(k, d)` for an integer-valued key. */
  function GetInt(s: State, k: string, d: int): int {
    if k in s && s[k].Int? then s[k].num else d
  }

  /** A partial dict without `k` leaves `state.get(k, d)` as it was. */
  lemma UpdateKeepsInt(s: State, u: State, k: string, d: int)
    requires k !in u
    ensures GetInt(Update(s, u), k, d) == GetInt(s, k, d)
  {
  }

  /** `state.get(k, d)` for a key holding a list of strings. */
  function GetStrs(s: State, k: string, d: seq<string>): seq<string> {
    if k in s && s[k].Strs? then s[k].strs else d
  }

  /** `state.get(k, {})` for a key holding a string-to-string dict. */
  function GetTable(s: State, k: string): map<string, string> {
    if k in s && s[k].Table? then s[k].table else map[]
  }

  /** `state.get(k, [])` for a key holding a message list. */
  function GetMessages(s: State, k: string): seq<Message> {
    if k in s && s[k].Messages? then s[k].messages else []
  }

  /** `dict.get(k, d)` on a string-to-string dict. */
  function TableGet(t: map<string, string>, k: string, d: string): string {
    if k in t then t[k] else d
  }

  /** Python truthiness of a JSON value. */
  predicate JsonTruthy(j: Json) {
    match j
    case JNull => false
    case JBool(b) => b
    case JNum(n) => n != 0
    case JStr(t) => t != []
    case JArr(a) => a != []
    case JObj(m) => m != map[]
  }

  /** Python truthiness of `state.get(k)`: a missing key reads as `None`. */
  predicate Truthy(s: State, k: string) {
    k in s &&
    match s[k]
    case Str(t) => t != []
    case Int(n) => n != 0
    case Bool(b) => b
    case Strs(l) => l != []
    case Table(t) => t != map[]
    case Messages(m) => m != []
    case Data(j) => JsonTruthy(j)
  }
}
