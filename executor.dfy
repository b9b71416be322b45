/**
 * The tool executor (graph.py `run_tools`): one tool-result message per
 * requested call, in request order, with every failure turned into text.
 * `tool.invoke` (argument-schema checking included) is an opaque total
 * function that either returns the tool's text or raises with a message.
 */
module Executor {

  import opened Wrappers
  import opened Messages
  import Tools

  /** What `tool.invoke(args)` does: return a result or raise an exception with a message. */
  datatype Outcome = Returned(value: string) | Raised(message: string)

  /** `tool.invoke`, as a function of the tool's name and the call's arguments. */
  type ToolInvoker = (string, map<string, string>) -> Outcome

  /** The names in `TOOLS_BY_NAME`. */
  const Registered: set<string> := {"calc", "utc_now"}

  /**
   * `TOOLS_BY_NAME` with its two tools: "calc" is `Tools.Calc` on the
   * "expression" argument, and "utc_now" returns the clock reading `now`.
   * A call whose arguments do not fit the tool's schema raises the
   * validation message `invalid`.
   */
  function ToolsByName(eval: string -> Tools.EvalOutcome, now: string, invalid: string): (invoke: ToolInvoker)
    ensures forall expr: string :: invoke("calc", map["expression" := expr]) == Returned(Tools.Calc(expr, eval))
    ensures forall args: map<string, string> :: invoke("utc_now", args) == Returned(now)
    ensures forall args: map<string, string> :: "expression" !in args ==> invoke("calc", args) == Raised(invalid)
  {
    (name: string, args: map<string, string>) =>
      if name == "calc" then
        if "expression" in args then Returned(Tools.Calc(args["expression"], eval)) else Raised(invalid)
      else if name == "utc_now" then Returned(now)
      else Raised(invalid)
  }

  /** `str(x)` / `f"{x}"` of the possibly missing `tc.get("name")`. */
  function NameText(name: Option<string>): (text: string)
    ensures name.Some? ==> text == name.value
    ensures name.None? ==> text == "None"
  {
    match name
    case Some(n) => n
    case None => "None"
  }

  /** `str(tc.get("id") or name)`: the request id, unless it is missing or empty. */
  function CallId(tc: ToolCall): (id: string)
    ensures tc.id.Some? && tc.id.value != "" ==> id == tc.id.value
    ensures tc.id.None? || tc.id == Some("") ==> id == NameText(tc.name)
  {
    if tc.id.Some? && tc.id.value != "" then tc.id.value else NameText(tc.name)
  }

  /** `tc.get("args", {}) or {}`. */
  function ArgsOf(tc: ToolCall): (args: map<string, string>)
    ensures tc.args.Some? ==> args == tc.args.value
    ensures tc.args.None? ==> args == map[]
  {
    tc.args.GetOr(map[])
  }

  /** The text recorded for one request: the lookup, then the call with its exception caught. */
  function Observation(tc: ToolCall, invoke: ToolInvoker): (obs: string)
    ensures tc.name.None? || tc.name.value !in Registered ==> obs == "Error: unknown tool '" + NameText(tc.name) + "'"
    ensures tc.name.Some? && tc.name.value in Registered ==>
              match invoke(tc.name.value, ArgsOf(tc))
              case Returned(value) => obs == value
              case Raised(message) => obs == "Tool error: " + message
  {
    if tc.name.None? || tc.name.value !in Registered then
      "Error: unknown tool '" + NameText(tc.name) + "'"
    else
      match invoke(tc.name.value, ArgsOf(tc))
      case Returned(value) => value
      case Raised(message) => "Tool error: " + message
  }

  /** The tool-result message `run_tools` builds for one request. */
  function Execute(tc: ToolCall, invoke: ToolInvoker): (m: Message)
    ensures m.ToolResult? && m.callId == CallId(tc)
  {
    ToolResult(Observation(tc, invoke), CallId(tc))
  }

  /** The reference for `run_tools`: the requests' results, position by position. */
  function ToolResults(calls: seq<ToolCall>, invoke: ToolInvoker): (r: seq<Message>)
    ensures |r| == |calls|
    ensures forall i :: 0 <= i < |calls| ==> r[i] == Execute(calls[i], invoke)
  {
    seq(|calls|, i requires 0 <= i < |calls| => Execute(calls[i], invoke))
  }

  /**
   * `run_tools`: walks the last message's tool calls in order and appends one
   * tool-result message for each; `steps` is left alone.
   */
  method RunTools(s: AgentState, invoke: ToolInvoker) returns (u: Update)
    requires |s.messages| > 0
    ensures u == Update(ToolResults(ToolCallsOf(Last(s.messages)), invoke), None)
  {
    var calls := ToolCallsOf(s.messages[|s.messages| - 1]);
    var msgs: seq<Message> := [];
    for i := 0 to |calls|
      invariant |msgs| == i
      invariant forall j :: 0 <= j < i ==> msgs[j] == Execute(calls[j], invoke)
    {
      var tc := calls[i];
      var args := if tc.args.Some? then tc.args.value else map[];
      var callId := if tc.id.Some? && tc.id.value != "" then tc.id.value else NameText(tc.name);
      var obs: string;
      if tc.name.None? || tc.name.value !in Registered {
        obs := "Error: unknown tool '" + NameText(tc.name) + "'";
      } else {
        var outcome := invoke(tc.name.value, args);
        match outcome
        case Returned(value) => obs := value;
        case Raised(message) => obs := "Tool error: " + message;
      }
      msgs := msgs + [ToolResult(obs, callId)];
    }
    u := Update(msgs, None);
  }

  /** A request for an unregistered name never fails: its result names the tool and keeps the correlation id. */
  lemma UnknownToolIsReported(tc: ToolCall, invoke: ToolInvoker)
    requires tc.name.None? || tc.name.value !in Registered
    ensures Execute(tc, invoke) == ToolResult("Error: unknown tool '" + NameText(tc.name) + "'", CallId(tc))
  {
  }

  /** A registered tool that raises yields "Tool error: " and the exception's message. */
  lemma RaisedIsReported(tc: ToolCall, invoke: ToolInvoker)
    requires tc.name.Some? && tc.name.value in Registered
    requires invoke(tc.name.value, ArgsOf(tc)).Raised?
    ensures Execute(tc, invoke).content == "Tool error: " + invoke(tc.name.value, ArgsOf(tc)).message
  {
  }

  /** A registered tool that returns has its text recorded unchanged. */
  lemma ReturnedIsRecorded(tc: ToolCall, invoke: ToolInvoker)
    requires tc.name.Some? && tc.name.value in Registered
    requires invoke(tc.name.value, ArgsOf(tc)).Returned?
    ensures Execute(tc, invoke).content == invoke(tc.name.value, ArgsOf(tc)).value
  {
  }

  /** The correlation id is the request's own id when present and non-empty, else the tool name. */
  lemma CallIdFallback(tc: ToolCall, invoke: ToolInvoker)
    ensures tc.id.Some? && tc.id.value != "" ==> Execute(tc, invoke).callId == tc.id.value
    ensures tc.id.None? || tc.id == Some("") ==> Execute(tc, invoke).callId == NameText(tc.name)
  {
  }

  /** Only the name and the arguments reach the tool: the request id never changes the result text. */
  lemma ContentIgnoresId(tc: ToolCall, id: Option<string>, invoke: ToolInvoker)
    ensures Execute(tc.(id := id), invoke).content == Execute(tc, invoke).content
  {
  }
}
